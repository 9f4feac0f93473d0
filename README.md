# tool-calling-evaluation, modelled in Dafny

tool-calling-evaluation is a harness that rates how well a language model
handles a simulated incident-response task. Each scenario gives an initial
environment and a request. The environment holds:

- deployments keyed by (service, namespace), each with a replica count and a
  restart time;
- feature flags;
- one ticket;
- an append-only incident log.

The model under evaluation drives six tools through a strict JSON reply
protocol: `metrics_query`, `k8s_scale`, `k8s_restart`, `feature_flag_set`,
`incident_log` and `ticket_update`. A scripted path replays a fixed list of
calls instead. The harness records every dispatched call in a trace. The
scorer then rates the run in four ways:

- the final environment against the scenario's acceptance criteria;
- a technical-success check that ignores the ticket;
- four partial-credit signals read off the trace;
- a weighted 0–100 composite score.

## Files and modules

- `prelude.dfy` (`Prelude`): an optional value, and the Python string
  operations the code relies on. These are `in`, `str(int)`, `strip`, `find`
  and `rfind`.
- `tools.dfy` (`Tools`): the environment, modelled twice.
  - `EnvState` is its value. For each tool, a function gives the new state
    and the result (`K8sScaleEffect`, …).
  - `class Env` is the mutable object. It has one method per tool, and each
    method is proved to match that tool's function.
  - The tool registry.
- `trace.dfy` (`Trace`): decoded JSON values, tool calls, trace entries, and
  the final snapshot.
- `harness.dfy` (`Harness`): the harness operations on the mutable
  environment, each proved against a function.
  - `build_env` is `BuildEnv`, proved against `InitialEnv`.
  - `exec_tool` is `ExecTool`. `Bind` covers keyword-argument binding, and
    `Dispatch` specifies the whole method.
  - `run_sequence` is `RunSequence`. `Replay` is its specification: replaying
    a trace re-dispatches each recorded call and must reproduce each recorded
    result.
  - The final snapshot is `Snapshot`, proved against `FinalOf`.
- `conversation.dfy` (`Conversation`): `run_llm`. It covers:
  - `parse_response`;
  - the reformat retry;
  - the branch on `final_answer` / `tool_call`;
  - the step loop.

  This module has `Turn`, `Loop` and `Converse` as functions, and
  `ParseWithRetry`, `PlayTurn` and `RunLlm` as methods proved against them.
  The chat endpoint, `json.loads` and the clock are parameters.
- `scoring.dfy` (`Scoring`): `check_acceptance`, `check_technical_success`,
  `partial_credit` and `compute_weighted_score`. Each criterion and each
  signal also has a reference definition.
- `scenarios.dfy` (`Scenarios`): end-to-end properties of the scripted path
  on a concrete checkout scenario, from building the environment to the full
  score.

Where the code and its documented design differ, the model follows the code:

- A turn makes two parse attempts, not one. Each failed attempt sends a
  reformat notice and requests a new reply, so after the second failure a
  third reply is requested and then unused. After that, the run ends
  normally (`Attempts`, `AttemptsNotices`).
- `run_llm` lets two kinds of exception escape. One is a failed chat
  request during a reformat retry. The other is a decoded reply the branch
  cannot inspect: `"final_answer" in parsed` raises a `TypeError` on a number,
  a boolean or `null`, and `parsed.get` raises an `AttributeError` on a list
  or a string that holds no final answer (`Classify`, `TurnStops`).
  The driver in `run_eval.py` does not catch them, so the model reports them
  as `Raised` and does not treat them as an early stop.
- The ticket status is not guaranteed to be one of the four statuses.
  `build_env` copies whatever status the fixture gives. Only `ticket_update`
  checks the status.
- `verification_performed` counts an action call followed by a later
  `metrics_query` whether or not the action succeeded.
- The trace also records calls that reach `exec_tool` and fail because the
  tool name is unknown. Only replies rejected before dispatch add no entry.
- The snapshot keys deployments by `"service:namespace"`. Two distinct
  deployments can share such a label, and then the snapshot shows only the
  later one (`LabelsCanCollide`).

## Model

| member | source | states |
|---|---|---|
| `Prelude.IntToString` | src/tools.py:106 | the f-string rendering of an integer is non-empty and uses only digits and a minus sign |
| `Prelude.Strip` | src/harness.py:152 | `strip()` gives the infix that neither starts nor ends with white space, and everything it cuts off is white space |
| `Prelude.Find` | src/harness.py:154 | `find` gives -1 exactly when the character is absent, and otherwise the index of its first occurrence |
| `Prelude.FindLast` | src/harness.py:155 | `rfind` gives -1 exactly when the character is absent, and otherwise the index of its last occurrence |
| `Tools.MetricsQueryResult` | src/tools.py:40-47 | succeeds exactly when the metric is known, the window is within 1..120 and the deployment exists; the checks come in that order, each with its own error; the environment is never changed |
| `Tools.K8sScaleEffect` | src/tools.py:104-111 | succeeds exactly when the count is within 1..100 and the deployment exists, with the range tested first; a success changes only the target's replica count, every other deployment and field is kept, and a failure changes nothing; well-formedness is kept |
| `Tools.K8sRestartEffect` | src/tools.py:114-119 | succeeds exactly when the deployment exists, and then stamps only its restart time with the current clock; no replica count and no other field changes |
| `Tools.FeatureFlagSetEffect` | src/tools.py:122-124 | always succeeds; the flags gain the named flag with the given value, and every other flag and field is kept |
| `Tools.IncidentLogEffect` | src/tools.py:127-132 | a valid severity appends exactly one entry after the old log; an invalid one fails and changes nothing |
| `Tools.TicketUpdateEffect` | src/tools.py:135-140 | a valid status overwrites both the status and the note and nothing else; an invalid one fails and leaves the ticket alone |
| `Tools.Lookup` | src/tools.py:143-150 | a name found in the registry belongs to that tool, and a name not found belongs to no tool |
| `Tools.LookupToolName` | src/tools.py:143-150 | every tool is found under its own registry name, so the names are distinct |
| `Tools.Env.constructor` | src/tools.py:20-25 | a new environment has no deployments and no flags, an open ticket with an empty note, an empty log and seed 42 |
| `Tools.Env.MetricsQuery` | src/tools.py:40-47 | returns the result `MetricsQueryResult` specifies, and (having no `modifies` clause) changes nothing |
| `Tools.Env.K8sScale` | src/tools.py:104-111 | updates the object in place to exactly the state and result `K8sScaleEffect` specifies, and keeps the object valid |
| `Tools.Env.K8sRestart` | src/tools.py:114-119 | updates the object in place to exactly the state and result `K8sRestartEffect` specifies, and keeps the object valid |
| `Tools.Env.FeatureFlagSet` | src/tools.py:122-124 | updates the object in place to exactly the state and result `FeatureFlagSetEffect` specifies, and keeps the object valid |
| `Tools.Env.IncidentLog` | src/tools.py:127-132 | updates the object in place to exactly the state and result `IncidentLogEffect` specifies, and keeps the object valid |
| `Tools.Env.TicketUpdate` | src/tools.py:135-140 | updates the object in place to exactly the state and result `TicketUpdateEffect` specifies, and keeps the object valid |
| `Harness.InitialEnv` | src/harness.py:32-45 | the log starts empty and the seed is the default; an absent ticket key keeps the default ticket, and each ticket field that is given replaces the default |
| `Harness.PlaceAllFrame` | src/harness.py:35-37 | placing deployments touches only the deployments and their order |
| `Harness.PlaceAllWellFormed` | src/harness.py:35-37 | placing deployments keeps every key mapped to its own deployment and the order free of repeats |
| `Harness.PlaceAllKeys` | src/harness.py:35-37 | the deployments are keyed by exactly the old keys plus the described pairs |
| `Harness.PlaceAllLastWins` | src/harness.py:35-37 | a pair that is described more than once holds its last description |
| `Harness.SetFlagsKeys` | src/harness.py:39-40 | the flags set are exactly the names listed |
| `Harness.SetFlagsLastWins` | src/harness.py:39-40 | each flag holds the truth value of its last listed value |
| `Harness.InitialEnvProperties` | src/harness.py:32-45 | the built environment is well formed; its deployments are exactly the described pairs, each holding its last description's names and replica count (one when none is given) and no restart time; its flags are exactly the listed names, each holding the truth value of its last listed value |
| `Harness.BuildEnv` | src/harness.py:32-45 | builds a fresh, well-formed object in the state `InitialEnv` describes |
| `Harness.Build` | src/harness.py:53 | arguments with the tool's exact names and types give an invocation of that tool |
| `Harness.Bind` | src/harness.py:53-56 | reports an unexpected keyword first, then a missing one, then a wrongly typed one; it binds exactly when the names are the tool's parameters and every value has the annotated type, and the bound invocation holds exactly the given arguments |
| `Harness.BuildArgsOf` | src/harness.py:53 | building an invocation loses no argument |
| `Harness.BindArgsOf` | src/harness.py:53 | an invocation's own arguments bind back to that invocation |
| `Harness.Dispatch` | src/harness.py:48-58 | an unknown name fails without any change; an argument error occurs exactly when binding fails, and carries the binding problem; every failure leaves the environment alone, and the new state is always the change the result reports |
| `Harness.DispatchKeepsShape` | src/harness.py:48-58 | no call adds or removes a deployment or reorders them, and every call keeps the environment well formed |
| `Harness.ApplyKeepsShape` | src/tools.py:104-140 | no tool function adds or removes a deployment or reorders them, and each keeps the environment well formed |
| `Harness.ExecTool` | src/harness.py:48-58 | updates the object in place to exactly the state and result `Dispatch` specifies, and keeps the object valid |
| `Harness.ReplayAppend` | src/harness.py:129-130 | replaying one more entry dispatches its call in the state the earlier entries replay to |
| `Harness.ReplayIsReported` | src/harness.py:124-130 | a trace that replays ends in the state its recorded results report, so the environment changes only through the recorded calls |
| `Harness.ReplayWellFormed` | src/harness.py:124-130 | replaying keeps the environment well formed, with the same deployments in the same order |
| `Harness.ReportedLog` | src/tools.py:127-132 | the log that a trace's results report is the old log followed by exactly the entries of its successful `incident_log` calls |
| `Harness.ReplayLog` | src/harness.py:124-130 | the incident log is append-only across a replayed trace |
| `Harness.ReportedReplicas` | src/tools.py:104-119 | a deployment that no successful scale result names keeps its replica count in the reported state |
| `Harness.ReplayReplicas` | src/harness.py:124-130 | across a replayed trace, a deployment's replica count changes only through a successful scale of that deployment |
| `Harness.ReplicaTableKeys` | src/harness.py:132 | the snapshot's keys are exactly the labels of the deployments |
| `Harness.ReplicaTableValue` | src/harness.py:132 | a deployment whose label no other deployment shares appears in the snapshot with its replica count |
| `Harness.LabelsCanCollide` | src/harness.py:132 | two distinct deployments can share a label, and the snapshot then keeps only the later one's count |
| `Harness.Snapshot` | src/harness.py:131-136 | the snapshot built by iterating over the deployments is the one `FinalOf` describes |
| `Harness.RecordCall` | src/harness.py:129-130 | one step appends exactly one entry, with the given step number and call, and the trace still replays to the object's new state |
| `Harness.RunSequence` | src/harness.py:124-137 | runs the first `max_steps` calls in order; the trace has one entry per run call, numbered from 1 and carrying that call; it replays from the old state to the new one; the snapshot is taken of the new state |
| `Conversation.ExtractObject` | src/harness.py:153-157 | when the text holds a `{` with a `}` at or after it, gives the span from the first `{` to the last `}`, and otherwise the whole text |
| `Conversation.ParseResponseSpan` | src/harness.py:150-158 | the text handed to `json.loads` is the stripped reply, narrowed to its brace span when it has one |
| `Conversation.StripUnchanged` | src/harness.py:152 | stripping changes nothing when the text neither starts nor ends with white space |
| `Conversation.ExtractSpan` | src/harness.py:152-157 | a span from a `{` to a `}` is its own stripped extraction |
| `Conversation.ParseResponseIdempotent` | src/harness.py:150-158 | applying the extraction twice gives the same text as applying it once |
| `Conversation.Classify` | src/harness.py:184-205 | a `final_answer` wins over any tool call; a non-object reply without one raises; an object without a non-empty `tool_call` object asks for one; a call is run exactly when its name is a string and its arguments (absent or empty meaning `{}`) an object, with exactly that name and those arguments |
| `Conversation.AttemptsNotices` | src/harness.py:171-182 | a parse succeeds after fewer than two failed attempts, and adds one reformat notice per failed attempt; giving up leaves one notice per attempt |
| `Conversation.FirstAttemptParses` | src/harness.py:171-174 | a reply that decodes at once needs no retry and adds no message |
| `Conversation.Turn` | src/harness.py:160-213 | a turn that adds no trace entry leaves the environment alone; a turn that adds one records the step number, and the dispatch of the recorded call at that step's clock reading gives that entry's result and the new state |
| `Conversation.TurnBranches` | src/harness.py:160-213 | a failed first request, a failed reformat request, two failed parses, a final answer and an uninspectable reply each stop the run (raising in the two exception cases); a reply without a usable `tool_call` and a malformed call each add their notice and no entry, leaving the environment alone; a well-formed call is dispatched with exactly the name and arguments `Classify` extracts, recorded under the step's number, and its result sent back to the model |
| `Conversation.TurnStops` | src/harness.py:160-205 | a turn stops the run exactly when the first request fails, the parse attempts do not yield a value, or the value is a final answer or cannot be inspected; it raises exactly when a reformat request fails or the value cannot be inspected |
| `Conversation.TurnOfContract` | src/harness.py:160-213 | every turn of a conversation keeps that contract |
| `Conversation.LoopSteps` | src/harness.py:160-213 | the loop only appends to the trace, at most one entry per remaining step, with strictly increasing step numbers within the budget |
| `Conversation.ReplayTurn` | src/harness.py:208-210 | a turn that goes on extends a trace that replays to the current state into one that replays to the turn's new state |
| `Conversation.LoopKeeps` | src/harness.py:160-213 | any relation that every turn carries over holds of the loop's final trace and environment |
| `Conversation.LoopReplays` | src/harness.py:160-213 | the loop changes the environment only through the calls it records, so its final trace replays to its final state |
| `Conversation.RunProperties` | src/harness.py:139-222 | a whole run records at most `max_steps` entries, numbered strictly increasingly within 1..`max_steps`; the trace replays from the initial environment to the final one, which stays well formed |
| `Conversation.FinalAnswerStops` | src/harness.py:184-191 | at any step within the budget, a reply that decodes, at once or after a reformat, to a final answer (an object with the key, a list holding the string, or a string containing it) ends the run there, without an exception, with the trace and the environment unchanged |
| `Conversation.FinalAnswerStopsAtOnce` | src/harness.py:184-191 | a first reply that decodes at once to a final answer ends the run at once with an empty trace and an unchanged environment |
| `Conversation.ParseWithRetry` | src/harness.py:171-182 | the retry loop gives the outcome `Attempts` describes |
| `Conversation.PlayTurn` | src/harness.py:161-213 | one iteration on the mutable environment gives the outcome `Turn` describes, and leaves the object in that outcome's state |
| `Conversation.RunLlm` | src/harness.py:139-222 | the mutable run ends in the environment `Converse` describes, and returns its trace and snapshot, or raises exactly when an exception escapes the loop |
| `Scoring.AnyMessageContains` | src/scoring.py:23 | true exactly when some log message contains the substring |
| `Scoring.DeploymentReason` | src/scoring.py:10-19 | adds no reason exactly when the deployment criterion holds; a missing or unnamed deployment gives the "missing deployment" reason |
| `Scoring.LogReason` | src/scoring.py:21-24 | adds no reason exactly when the log criterion holds |
| `Scoring.TicketReason` | src/scoring.py:26-29 | adds no reason exactly when the ticket criterion holds |
| `Scoring.CheckAcceptance` | src/scoring.py:6-31 | valid exactly when there are no reasons, and exactly when all three criteria hold; there is one reason per failed criterion; empty criteria accept every state |
| `Scoring.CheckTechnicalSuccess` | src/scoring.py:34-59 | valid exactly when the deployment and log criteria hold; its reasons are the acceptance reasons without the ticket reason, so acceptance implies technical success |
| `Scoring.TechnicalIgnoresTicket` | src/scoring.py:57 | technical success does not depend on the ticket |
| `Scoring.WrongTicketOnlyFailsAcceptance` | src/scoring.py:26-29 | a state that meets every criterion except the ticket is technically successful, is not accepted, and has only the ticket reason |
| `Scoring.ArgumentFailureIsFlaggedAsWritten` | src/scoring.py:72 | every binding failure is caught by the substring test as written |
| `Scoring.EchoedNameTripsSubstringTest` | src/scoring.py:72 | an unknown tool named "argument error" passes the substring test but is not an argument error |
| `Scoring.RangeFailuresNotFlagged` | src/scoring.py:72 | no replica or window range error passes the substring test, whatever the number |
| `Scoring.AsWrittenSyntaxImpliesCorrected` | src/scoring.py:72-76 | clean tool syntax under the substring test implies clean tool syntax under the intended test, and the other three signals are the same under both |
| `Scoring.EchoedNameLosesSyntaxAsWritten` | src/scoring.py:72 | a trace whose only call names an unknown tool "argument error" loses clean tool syntax under the substring test and keeps it under the intended one |
| `Scoring.ComputePartialCredit` | src/scoring.py:62-88 | the single pass computes exactly the four signals of `PartialCreditOf`: no argument error, a `metrics_query` after some action, some `incident_log` call, and some `ticket_update` call |
| `Scoring.ComputeWeightedScore` | src/scoring.py:91-138 | the total is the sum of the breakdown and lies within 0..100; it is 100 exactly when all five signals hold, and at least 60 exactly when the run is technically successful |
| `Scoring.ScoreIgnoresAcceptance` | src/scoring.py:91-138 | the score does not depend on the acceptance verdict |
| `Scenarios.DispatchCallOf` | src/harness.py:48-58 | a call written with a tool's registry name and its invocation's arguments runs that invocation |
| `Scenarios.CheckoutStart` | src/harness.py:32-45 | the checkout description builds one deployment with two replicas, an empty log and an open ticket |
| `Scenarios.ScaleStep` | src/tools.py:104-111 | scaling checkout to six succeeds wherever the deployment exists |
| `Scenarios.QueryStep` | src/tools.py:40-47 | querying checkout's error rate succeeds and changes nothing |
| `Scenarios.LogStep` | src/tools.py:127-132 | logging the mitigation appends exactly one warning entry |
| `Scenarios.TicketStep` | src/tools.py:135-140 | marking the ticket mitigated sets both the status and the note |
| `Scenarios.RemediationScales` | src/harness.py:124-130 | the first two remediation calls succeed and leave checkout at six replicas |
| `Scenarios.RemediationLogs` | src/harness.py:124-130 | the third remediation call logs the incident at the clock reading of its step |
| `Scenarios.RemediationReplay` | src/harness.py:124-130 | a replayed remediation succeeds call by call and ends in the remediated state, with nothing else changed |
| `Scenarios.RemediationCredit` | src/scoring.py:62-88 | a successful remediation trace earns all four partial-credit signals |
| `Scenarios.RemediatedMeetsCriteria` | src/scoring.py:6-59 | the remediated state passes both `check_acceptance` and `check_technical_success` |
| `Scenarios.RemediationScoresFull` | src/scoring.py:91-138 | the remediation from a state with the checkout deployment and an empty log scores 100 |
| `Scenarios.ScaleOnlyReplay` | src/harness.py:124-130 | a trace of only the scale-up succeeds and ends scaled up |
| `Scenarios.ScaleOnlyScoresSyntax` | src/scoring.py:91-138 | a run that only scales fails both checks and scores exactly the syntax weight |
| `Scenarios.OutOfRangeIsNotSyntax` | src/tools.py:105-106 | scaling to 150 fails with a range error, changes nothing, and keeps clean tool syntax |
| `Scenarios.StringReplicasIsSyntaxError` | src/harness.py:53-56 | a replica count written as a string is an argument error and loses clean tool syntax |
| `Scenarios.SnapshotOfRemediated` | src/harness.py:131-136 | the remediated checkout environment snapshots to `checkout-service:prod` at six replicas |
| `Scenarios.RunRemediation` | src/harness.py:124-137 | the scripted checkout remediation run end to end gives four entries, six replicas, a mitigated ticket, one log entry and a score of 100 |

## Left out

- The metric reading's synthetic `value`, `status` and `recommendation` (src/tools.py:48-93) are out of the model. They are floating-point noise drawn from `random.Random` seeded with `hash(...)`, which Python salts per process. Only the `metric` and `minutes` fields of a successful reading are modelled.
- Floating point in general is out of the model. The weights are exact whole percentage points (60, 15, 15, 5, 5), where the code multiplies fractional weights by 100 and applies `round(..., 1)`. That float arithmetic is not modelled.
- Python's dynamic typing is not modelled in full. A tool argument that does not have its advertised JSON type (string, integer or boolean) becomes a `WrongType` argument error before the tool runs. In Python, some such values reach the tool body and fail later with a different error, or succeed. Python also accepts `true` where an integer is expected; the model does not.
- The text of a Python `TypeError` is summarised as one of three fixed phrases. An argument named `env` ("multiple values for argument") counts as an unexpected keyword argument.
- The `runtime error:` branch of `exec_tool` (src/harness.py:57-58) is not modelled. No modelled tool raises anything other than `TypeError`.
- `json.loads` is a parameter `decode`. Reading a reply is `Reader(decode)`, that is, `decode` applied to `ParseResponse` of the reply.
- The chat endpoint is a parameter `chat` of the whole message history. This replaces the HTTP request, the API key, `.env` loading, the offline `no_api_key` reply, the temperature and the token limit.
- The wall clock is a parameter `clock`, read once per step number. The model does not capture that two `time.time()` calls within one step differ.
- The tool schema text and the prompt file are parameters, and logging is not modelled.
- The `ERROR:` system message appended after a failed chat request is not modelled. The run stops right after it, and nothing reads it.
- `json.dumps` of a tool result is the message content `ToolResultContent(result)`, not its text.
- Scoring.ComputePartialCredit: computes the intended `tool_syntax_ok`, which is false exactly when some result is an argument-binding failure. src/scoring.py:72 tests instead whether an error text contains "argument error" (see Findings). That as-written signal is `PartialCreditAsWritten`, and `AsWrittenSyntaxImpliesCorrected` relates the two.
- Fixture data that would make `build_env` raise a `KeyError` (a deployment without `service` or `namespace`) is not representable.
- The `Scenario` and `ToolCall` pydantic validation, and the driver in `run_eval.py`, are out of the model. run_eval.py is not part of this model.
- Criteria values of unexpected types (a non-string `incident_log_contains`, a non-integer `replicas_gte`) are not representable.

## Findings

| source | as written | input that shows it | evidently intended | confidence | as-written member | corrected member |
|---|---|---|---|---|---|---|
| src/scoring.py:72 | `tool_syntax_ok` is lost when a failed result's error text contains "argument error", and error texts echo caller-supplied names | an unknown tool named `argument error`, whose error text is `unknown tool: argument error` | only failures caused by argument binding count against tool syntax | not executed | `Scoring.EchoedNameLosesSyntaxAsWritten` | `Scoring.ComputePartialCredit` |
