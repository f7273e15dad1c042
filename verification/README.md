# CRM agent decision engine — Dafny model

This project models the reasoning and action layer of the CRM agent
(`CRMAgent` in `agent_engine.py`). Given a deal's win probability and its raw
record, the agent builds a decision log. The log says whether an
intervention is required, which one (`NONE`, `AUTONOMOUS_DISCOUNT_TRIGGER`
or `MANAGER_ALERT_TASK`) and why. The agent then emits either the action and
its justification, or a "monitoring active" status.

Modules:

- `Wrappers`: `Option` and `Result`.
- `Decisions`: the decision log (`Decision`, without its timestamp), the action
  types with their exact stored names, justifications as tags, and the emitted
  lines (`Message`). `Decision.WellFormed` is the log's invariant: no action
  exactly when none is required, and each action carries its own justification.
- `Engine`: the agent's configuration (threshold, default 0.60) and the
  hard-coded 50000 USD cutoff. It holds the decision table on a numeric amount
  (`Decide`) and the reasoning step on the raw record (`ReasoningLogic`). It
  also holds the action step (`Execute`), its inverse (`Interpret`) and the
  observe-reason-act cycle (`AnalyzeAndAct`). In that cycle the preprocessor
  and the predictor are function parameters; the preprocessor returns a
  `Result`, since it can raise.
- `RuleTable`: the same decision table written as an ordered list of rules with
  first-match semantics, and the proof that it agrees with `Decide`.
- `Properties`: boundary, monotonicity and worked-scenario lemmas.

Probabilities, thresholds and amounts are `real`: the code only compares
them. The raw record is a single row mapping column names to cells. A cell is
a number, a missing value (NaN) or text. This lets the model state what the
code does with a bad amount:

- An absent `Opportunity Amount USD` column raises a `KeyError`.
- A text amount makes `deal_value > 50000` raise a `TypeError`.
- A NaN amount compares false, so the deal goes to the manager.

The amount is looked up only for an at-risk deal, so the reasoning step never fails on a healthy deal. In a full cycle the fitted preprocessor runs first; it may raise on the same bad record, and its error then propagates before any reasoning.

The code does not check that the probability lies in [0, 1], and it has no
validation error. The model follows the code: `Decide` and `ReasoningLogic`
accept any probability. The cutoff is a fixed 50000 in the code, not a
configuration value, and the model keeps it fixed.

## Model

| member | source | states |
|---|---|---|
| Engine.NewAgent | agent_engine.py:13-22 | a newly constructed agent uses the threshold 0.60 (the configured default, recorded for the worked examples) |
| Engine.Decide | agent_engine.py:48-71 | the output keeps the input probability and is well-formed; action is required exactly when p < threshold; the action is NONE exactly when p >= threshold; AUTONOMOUS_DISCOUNT_TRIGGER exactly when p < threshold and amount > 50000; MANAGER_ALERT_TASK exactly when p < threshold and amount <= 50000; a healthy deal gets the "deal health is optimal" justification |
| Engine.ExceedsCutoff | agent_engine.py:61-66 | comparing the amount cell with 50000 fails exactly for text, and then with a TypeError; it is true only for a number above 50000 (a NaN compares false) |
| Engine.ReasoningLogic | agent_engine.py:44-73 | the reasoning step on the raw row fails exactly when the deal is at risk and the amount column is absent (KeyError) or holds text (TypeError); a healthy deal always succeeds with no action; a numeric amount gives the decision table's result; a NaN amount on an at-risk deal gives MANAGER_ALERT_TASK; every result keeps the probability and is well-formed |
| Engine.AmountNotReadWhenHealthy | agent_engine.py:57-61 | for a healthy deal the result does not depend on the row at all, and it is always a success |
| Engine.Execute | agent_engine.py:75-83 | a required action emits its action-type name and its justification; otherwise only the monitoring status is emitted; the monitoring status appears exactly when no action is required |
| Engine.Interpret | agent_engine.py:79-83 | any decision recovered from emitted lines re-emits exactly those lines and carries the given probability |
| Engine.ExecuteRoundTrip | agent_engine.py:75-83 | every well-formed decision is recovered from its emitted lines and probability, so emitting loses nothing |
| Engine.AnalyzeAndAct | agent_engine.py:24-42 | if the preprocessor raises, the cycle fails with its error; otherwise its decision, or its error, is exactly the reasoning step's on the predicted probability and the raw row, and it fails exactly when the predicted probability is below the threshold and the amount is absent or text; on success the decision carries the predicted probability and is well-formed, action is required exactly when the prediction is below the threshold, and the emitted lines are the action step's output for that decision |
| Decisions.ParseActionType | agent_engine.py:52-67 | reading a stored action-type text gives back the action with that name, and only that one |
| RuleTable.FirstMatch | agent_engine.py:57-71 | the result is the index of the first rule whose condition holds, or none when no rule holds |
| RuleTable.JustificationFor | agent_engine.py:64-71 | each action gets the justification that makes its log well-formed |
| RuleTable.Evaluate | agent_engine.py:57-71 | a rule list yields a well-formed decision for p whose action is that of the first rule whose condition holds, or nothing exactly when no rule's condition holds |
| RuleTable.CatchAllMakesTotal | agent_engine.py:57-71 | a rule list ending in an always-true rule decides every input, as the final `else` does |
| RuleTable.DecideAgreesWithTable | agent_engine.py:57-71 | the if/else chain and the three-rule table (discount, escalation, no action) give the same decision on every input |
| Properties.ThresholdIsHealthy | agent_engine.py:57 | a probability equal to the threshold is healthy whatever the amount, and only the monitoring status is emitted |
| Properties.LowerProbabilityKeepsAction | agent_engine.py:57-68 | lowering the probability never withdraws a required action or changes which action it is |
| Properties.HigherAmountKeepsDiscount | agent_engine.py:63-65 | raising the amount of a discounted deal keeps the discount |
| Properties.DefaultAgentScenarios | agent_engine.py:13-71 | worked examples only, no general claim: with the default threshold, 0.75/80000 needs nothing, 0.45/80000 gets the discount, 0.45/20000 goes to the manager, 0.60/100000 needs nothing |

## Left out

- The timestamp (`time.strftime`) is wall-clock I/O and is not part of the decision record here.
- Justification texts are tags. The percent formatting of the probability in the discount text, and the console `print`s, are string formatting and I/O.
- The observation line printed before reasoning is console output only.
- The preprocessor's `transform` and the network's `predict` are foreign library calls. They are uninterpreted function parameters of `AnalyzeAndAct`. When, and with which error, the fitted preprocessor raises is left to the parameter.
- Engine.AnalyzeAndAct: `predict` is a total function, so an inference failure is not modelled; and the repository's fitted preprocessor reads the amount column itself, so on its data an absent or text amount would fail inside `transform` before the reasoning step's KeyError or TypeError is reached. The model states the cycle for whatever `transform` is supplied.
- Probabilities are real numbers. A NaN probability compares false with the threshold, so the code would treat it as healthy. Float32 rounding is not modelled either.
- The record is a single row. `.values[0]` on an empty frame would raise an `IndexError`, and that case is not modelled. Cells other than number, NaN or text are not modelled.
- Data preparation (CSV loading, imputation, scaling, one-hot encoding, splitting) and the perception model (network construction, training, evaluation) are library numerics. data_processor.py and perception_model.py are not part of this model.
