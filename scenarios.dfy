/** Whole runs of the scripted path on concrete scenarios: an environment
    built from a description, a call list replayed through `exec_tool`,
    and the scores of the outcome. */
module Scenarios {
  import opened Prelude
  import opened Tools
  import opened Trace
  import opened Harness
  import opened Scoring

  /** A call as a model would write it for an invocation: the tool's
      registry name and exactly its keyword arguments. */
  function CallOf(inv: Invocation): ToolCall {
    ToolCall(ToolName(ToolOf(inv)), ArgsOf(inv))
  }

  /** A call written for an invocation runs that invocation. */
  lemma DispatchCallOf(s: EnvState, inv: Invocation, now: Timestamp)
    ensures Dispatch(s, CallOf(inv), now) == Apply(s, inv, now)
  {
    LookupToolName(ToolOf(inv));
    BindArgsOf(inv);
  }

  /** Every prefix of a trace that replays replays as well. */
  lemma {:induction false} ReplayPrefix(s0: EnvState, entries: seq<TraceEntry>, n: nat, clock: nat -> Timestamp)
    requires Replay(s0, entries, clock).Some? && n <= |entries|
    ensures Replay(s0, entries[..n], clock).Some?
    decreases |entries|
  {
    if n < |entries| {
      var init := entries[..|entries| - 1];
      ReplayPrefix(s0, init, n, clock);
      assert init[..n] == entries[..n];
    } else {
      assert entries[..n] == entries;
    }
  }

  /** One more entry of a replaying trace, written for invocation `inv` in
      state `x`: it records the invocation's result and replays to the
      invocation's new state. */
  lemma Advance(s0: EnvState, entries: seq<TraceEntry>, k: nat, clock: nat -> Timestamp,
                x: EnvState, inv: Invocation, e: Effect)
    requires k < |entries| && Replay(s0, entries[..k], clock) == Some(x)
    requires Replay(s0, entries[..k + 1], clock).Some?
    requires entries[k].call == CallOf(inv) && Apply(x, inv, clock(entries[k].step)) == e
    ensures Replay(s0, entries[..k + 1], clock) == Some(e.env) && entries[k].result == e.result
  {
    assert entries[..k + 1][..k] == entries[..k];
    DispatchCallOf(x, inv, clock(entries[k].step));
  }

  const Checkout: Key := ("checkout-service", "prod")

  /** One deployment, `checkout-service` in `prod`, with two replicas. */
  const CheckoutInit: InitialState :=
    InitialState([DeploymentSpec("checkout-service", "prod", Some(2))], [], None)

  /** The environment `CheckoutInit` builds. */
  lemma CheckoutStart()
    ensures var s := InitialEnv(CheckoutInit);
            && s.deployments == map[Checkout := Deployment("checkout-service", "prod", 2, None)]
            && s.order == [Checkout] && s.incidentLog == [] && s.ticket == DefaultTicket
  {
    var ds := CheckoutInit.deployments;
    assert ds[..0] == [];
    assert PlaceAll(EmptyEnv, ds) == PlaceDeployment(EmptyEnv, ds[0]);
  }

  const ScaleUp: Invocation := K8sScaleCall("checkout-service", 6, "prod")
  const QueryErrors: Invocation := MetricsQueryCall("checkout-service", "error_rate", 15, "prod")
  const Mitigation: string := "scaled checkout-service to mitigate errors"
  const LogScaling: Invocation := IncidentLogCall(Mitigation, "warning")
  const MarkMitigated: Invocation := TicketUpdateCall("mitigated", "scaled and verified")

  /** Scale up, check the error rate, log the incident, mark the ticket. */
  const Remediation: seq<ToolCall> := [CallOf(ScaleUp), CallOf(QueryErrors), CallOf(LogScaling), CallOf(MarkMitigated)]

  /** `x` with the checkout deployment at six replicas. */
  function ScaledUp(x: EnvState): EnvState
    requires Checkout in x.deployments
  {
    x.(deployments := x.deployments[Checkout := x.deployments[Checkout].(replicas := 6)])
  }

  /** `x` after the whole remediation, the incident logged at `now`. */
  function Remediated(x: EnvState, now: Timestamp): EnvState
    requires Checkout in x.deployments
  {
    ScaledUp(x).(incidentLog := x.incidentLog + [LogEntry(now, "warning", Mitigation)],
                 ticket := Ticket("mitigated", "scaled and verified"))
  }

  // Each call of the remediation, in any state that holds the checkout
  // deployment.

  lemma ScaleStep(x: EnvState, now: Timestamp)
    requires Checkout in x.deployments
    ensures Apply(x, ScaleUp, now) == Effect(ScaledUp(x), Success(ScaleData("checkout-service", "prod", 6)))
  {
  }

  lemma QueryStep(x: EnvState, now: Timestamp)
    requires Checkout in x.deployments
    ensures Apply(x, QueryErrors, now) == Effect(x, Success(MetricsData("error_rate", 15)))
  {
  }

  lemma LogStep(x: EnvState, now: Timestamp)
    ensures Apply(x, LogScaling, now)
            == Effect(x.(incidentLog := x.incidentLog + [LogEntry(now, "warning", Mitigation)]),
                      Success(LogData(LogEntry(now, "warning", Mitigation))))
  {
  }

  lemma TicketStep(x: EnvState, now: Timestamp)
    ensures Apply(x, MarkMitigated, now)
            == Effect(x.(ticket := Ticket("mitigated", "scaled and verified")),
                      Success(TicketData("mitigated", "scaled and verified")))
  {
  }

  /** The first two calls of the remediation scale up and leave the
      environment scaled. */
  lemma RemediationScales(s0: EnvState, trace: seq<TraceEntry>, clock: nat -> Timestamp)
    requires Checkout in s0.deployments
    requires |trace| == 4 && forall i :: 0 <= i < 4 ==> trace[i].call == Remediation[i]
    requires Replay(s0, trace, clock).Some?
    ensures Replay(s0, trace[..2], clock) == Some(ScaledUp(s0))
    ensures trace[0].result.Success? && trace[1].result.Success?
  {
    assert trace[..0] == [];
    ReplayPrefix(s0, trace, 1, clock);
    ReplayPrefix(s0, trace, 2, clock);
    var t1, t2 := clock(trace[0].step), clock(trace[1].step);
    ScaleStep(s0, t1);
    Advance(s0, trace, 0, clock, s0, ScaleUp, Apply(s0, ScaleUp, t1));
    QueryStep(ScaledUp(s0), t2);
    Advance(s0, trace, 1, clock, ScaledUp(s0), QueryErrors, Apply(ScaledUp(s0), QueryErrors, t2));
  }

  /** The third call logs the incident at the clock reading of its step. */
  lemma RemediationLogs(s0: EnvState, trace: seq<TraceEntry>, clock: nat -> Timestamp)
    requires Checkout in s0.deployments
    requires |trace| == 4 && forall i :: 0 <= i < 4 ==> trace[i].call == Remediation[i]
    requires Replay(s0, trace, clock).Some?
    ensures Replay(s0, trace[..3], clock)
            == Some(ScaledUp(s0).(incidentLog := s0.incidentLog + [LogEntry(clock(trace[2].step), "warning", Mitigation)]))
    ensures trace[2].result.Success?
  {
    RemediationScales(s0, trace, clock);
    ReplayPrefix(s0, trace, 3, clock);
    var t3 := clock(trace[2].step);
    var x2 := ScaledUp(s0);
    LogStep(x2, t3);
    Advance(s0, trace, 2, clock, x2, LogScaling, Apply(x2, LogScaling, t3));
  }

  /** From any environment that holds the checkout deployment, a trace of
      the remediation succeeds call by call and ends in the remediated
      environment: six replicas, one more log entry, a mitigated ticket,
      and nothing else changed. */
  lemma RemediationReplay(s0: EnvState, trace: seq<TraceEntry>, s: EnvState, clock: nat -> Timestamp)
    requires Checkout in s0.deployments
    requires |trace| == 4 && forall i :: 0 <= i < 4 ==> trace[i].call == Remediation[i]
    requires Replay(s0, trace, clock) == Some(s)
    ensures s == Remediated(s0, clock(trace[2].step))
    ensures trace[0].result.Success? && trace[1].result.Success?
    ensures trace[2].result.Success? && trace[3].result.Success?
  {
    RemediationScales(s0, trace, clock);
    RemediationLogs(s0, trace, clock);
    assert trace[..4] == trace;
    var x3 := ScaledUp(s0).(incidentLog := s0.incidentLog + [LogEntry(clock(trace[2].step), "warning", Mitigation)]);
    var t4 := clock(trace[3].step);
    TicketStep(x3, t4);
    var e4 := Apply(x3, MarkMitigated, t4);
    Advance(s0, trace, 3, clock, x3, MarkMitigated, e4);
    assert Some(s) == Replay(s0, trace[..4], clock) == Some(e4.env);
  }

  /** At least five replicas, a log message mentioning mitigation, and a
      mitigated ticket. */
  const CheckoutCriteria: Criteria :=
    Criteria(Some(DeploymentCriterion(Some("checkout-service"), Some("prod"), Some(5))), Some("mitigat"), Some("mitigated"))

  /** The scores of a finished scripted run. */
  function ScoreOf(s: EnvState, calls: seq<TraceEntry>, c: Criteria): WeightedScore {
    ComputeWeightedScore(CheckAcceptance(s, c), PartialCreditOf(calls), CheckTechnicalSuccess(s, c))
  }

  lemma MitigationMentioned()
    ensures Contains(Mitigation, "mitigat") && Contains(Mitigation, "scaled checkout-service")
  {
    var m := Mitigation;
    assert m[27..34] == "mitigat";
    assert OccursAt(m, "mitigat", 27);
    assert m[0..23] == "scaled checkout-service";
    assert OccursAt(m, "scaled checkout-service", 0);
  }

  /** A trace of the remediation's calls, each succeeding, earns every
      partial-credit signal. */
  lemma RemediationCredit(trace: seq<TraceEntry>)
    requires |trace| == 4 && forall i :: 0 <= i < 4 ==> trace[i].call == Remediation[i]
    requires trace[0].result.Success? && trace[1].result.Success?
    requires trace[2].result.Success? && trace[3].result.Success?
    ensures PartialCreditOf(trace) == PartialCredit(true, true, true, true)
  {
    assert forall i :: 0 <= i < |trace| ==> !ArgumentFailure(trace[i].result);
    assert trace[0].call.name in ActionTools && trace[1].call.name == "metrics_query";
    assert trace[2].call.name == "incident_log" && trace[3].call.name == "ticket_update";
  }

  /** The remediated environment meets every criterion when the log was
      empty before. */
  lemma RemediatedMeetsCriteria(s0: EnvState, now: Timestamp)
    requires Checkout in s0.deployments && s0.incidentLog == []
    ensures var s := Remediated(s0, now);
            && CheckAcceptance(s, CheckoutCriteria).valid && CheckTechnicalSuccess(s, CheckoutCriteria).valid
  {
    var s := Remediated(s0, now);
    MitigationMentioned();
    assert s.incidentLog[0].message == Mitigation;
    assert LogMet(s, CheckoutCriteria);
    assert DeploymentMet(s, CheckoutCriteria) && TicketMet(s, CheckoutCriteria);
  }

  /** The full remediation from an environment with the checkout
      deployment and an empty log: six replicas, one log entry that
      mentions the scaling, a mitigated ticket, every partial-credit
      signal, and the full score. */
  lemma RemediationScoresFull(s0: EnvState, trace: seq<TraceEntry>, s: EnvState, clock: nat -> Timestamp)
    requires Checkout in s0.deployments && s0.incidentLog == []
    requires |trace| == 4 && forall i :: 0 <= i < 4 ==> trace[i].call == Remediation[i]
    requires Replay(s0, trace, clock) == Some(s)
    ensures Checkout in s.deployments && s.deployments[Checkout].replicas == 6
    ensures |s.incidentLog| == 1 && Contains(s.incidentLog[0].message, "scaled checkout-service")
    ensures s.ticket.status == "mitigated"
    ensures PartialCreditOf(trace) == PartialCredit(true, true, true, true)
    ensures CheckAcceptance(s, CheckoutCriteria).valid
    ensures ScoreOf(s, trace, CheckoutCriteria).totalScore == 100
  {
    RemediationReplay(s0, trace, s, clock);
    RemediationCredit(trace);
    RemediatedMeetsCriteria(s0, clock(trace[2].step));
    MitigationMentioned();
  }

  /** A trace of the scale-up alone succeeds and ends scaled up. */
  lemma ScaleOnlyReplay(s0: EnvState, trace: seq<TraceEntry>, s: EnvState, clock: nat -> Timestamp)
    requires Checkout in s0.deployments
    requires |trace| == 1 && trace[0].call == CallOf(ScaleUp)
    requires Replay(s0, trace, clock) == Some(s)
    ensures s == ScaledUp(s0) && trace[0].result == Success(ScaleData("checkout-service", "prod", 6))
  {
    assert trace[..0] == [] && trace[..1] == trace;
    ScaleStep(s0, clock(trace[0].step));
    Advance(s0, trace, 0, clock, s0, ScaleUp, Apply(s0, ScaleUp, clock(trace[0].step)));
  }

  /** A run that only scales, from an environment with the checkout
      deployment and an empty log: the deployment criterion holds but the
      log criterion does not, so neither check passes, no incident was
      logged, and the only weight earned is that of clean tool syntax. */
  lemma ScaleOnlyScoresSyntax(s0: EnvState, trace: seq<TraceEntry>, s: EnvState, clock: nat -> Timestamp)
    requires Checkout in s0.deployments && s0.incidentLog == []
    requires |trace| == 1 && trace[0].call == CallOf(ScaleUp)
    requires Replay(s0, trace, clock) == Some(s)
    ensures Checkout in s.deployments && s.deployments[Checkout].replicas == 6
    ensures !CheckTechnicalSuccess(s, CheckoutCriteria).valid && !CheckAcceptance(s, CheckoutCriteria).valid
    ensures PartialCreditOf(trace) == PartialCredit(true, false, false, false)
    ensures ScoreOf(s, trace, CheckoutCriteria).totalScore == SyntaxWeight
  {
    ScaleOnlyReplay(s0, trace, s, clock);
    assert !LogMet(s, CheckoutCriteria);
    assert !ArgumentFailure(trace[0].result);
  }

  /** Scaling to 150 replicas fails with a range error and changes
      nothing, in any environment. A range error is not an argument
      error, so clean tool syntax still holds, by the substring test as
      written and by the intended test alike. */
  lemma OutOfRangeIsNotSyntax(s0: EnvState, now: Timestamp)
    ensures var e := Dispatch(s0, CallOf(K8sScaleCall("checkout-service", 150, "prod")), now);
            && e == Effect(s0, Failure(ReplicasOutOfRange(150)))
            && !ArgumentFailureAsWritten(e.result)
            && PartialCreditOf([TraceEntry(1, CallOf(K8sScaleCall("checkout-service", 150, "prod")), e.result)])
                 .toolSyntaxOk
  {
    DispatchCallOf(s0, K8sScaleCall("checkout-service", 150, "prod"), now);
    RangeFailuresNotFlagged(150);
  }

  /** A replica count written as a string is an argument error, under the
      substring test as written and the intended test alike, and loses
      clean tool syntax. */
  lemma StringReplicasIsSyntaxError(s0: EnvState, now: Timestamp)
    ensures var call := ToolCall("k8s_scale", map["service" := JStr("checkout-service"), "replicas" := JStr("6"),
                                                  "namespace" := JStr("prod")]);
            var e := Dispatch(s0, call, now);
            && e == Effect(s0, Failure(ArgumentError("k8s_scale", WrongType)))
            && ArgumentFailureAsWritten(e.result)
            && !PartialCreditOf([TraceEntry(1, call, e.result)]).toolSyntaxOk
  {
    var call := ToolCall("k8s_scale", map["service" := JStr("checkout-service"), "replicas" := JStr("6"),
                                          "namespace" := JStr("prod")]);
    assert call.arguments.Keys == Params(K8sScaleTool);
    assert !HasKind(call.arguments["replicas"], KindOf(K8sScaleTool, "replicas"));
    ArgumentFailureIsFlaggedAsWritten(Failure(ArgumentError("k8s_scale", WrongType)));
    var e := Dispatch(s0, call, now);
    assert [TraceEntry(1, call, e.result)][0].result == e.result;
  }

  /** The snapshot of the remediated environment of `CheckoutInit`: one
      deployment, at six replicas. */
  lemma SnapshotOfRemediated(x: EnvState, now: Timestamp)
    requires x.deployments == map[Checkout := Deployment("checkout-service", "prod", 2, None)]
    requires x.order == [Checkout]
    ensures FinalOf(Remediated(x, now)).deployments == map["checkout-service:prod" := 6]
  {
    var d := Remediated(x, now).deployments;
    assert d == map[Checkout := Deployment("checkout-service", "prod", 6, None)];
    assert Label(Checkout) == "checkout-service:prod";
    assert [Checkout][..0] == [];
    assert ReplicaTable([Checkout], d) == map[][Label(Checkout) := 6];
  }

  /** The scripted remediation end to end on the mutable environment:
      build the environment of `CheckoutInit`, replay the calls within the
      default step budget, and score the outcome. */
  method RunRemediation(clock: nat -> Timestamp) returns (t: ExecutionTrace, score: WeightedScore)
    ensures |t.toolCalls| == 4
    ensures t.final.deployments == map["checkout-service:prod" := 6] && t.final.ticket.status == "mitigated"
    ensures |t.final.incidentLog| == 1
    ensures score.totalScore == 100
  {
    var env := BuildEnv(CheckoutInit);
    CheckoutStart();
    ghost var s0 := env.State();
    t := RunSequence(env, Remediation, DefaultMaxSteps, clock);
    var s := env.State();
    RemediationScoresFull(s0, t.toolCalls, s, clock);
    RemediationReplay(s0, t.toolCalls, s, clock);
    SnapshotOfRemediated(s0, clock(t.toolCalls[2].step));
    var acceptance := CheckAcceptance(s, CheckoutCriteria);
    var technical := CheckTechnicalSuccess(s, CheckoutCriteria);
    var partial := ComputePartialCredit(t.toolCalls);
    score := ComputeWeightedScore(acceptance, partial, technical);
  }
}
