/** The scoring engine (src/scoring.py): `check_acceptance`, the
    technical-success check, the partial-credit signals read off the trace,
    and the weighted composite score. */
module Scoring {
  import opened Prelude
  import opened Tools
  import opened Trace

  /** The `deployment` criterion, a non-empty mapping whose three keys may
      each be absent. An absent or empty mapping is `None` in `Criteria`. */
  datatype DeploymentCriterion = DeploymentCriterion(service: Option<string>, namespace: Option<string>,
                                                     replicasGte: Option<int>)

  /** The acceptance criteria of a scenario; every key is optional. */
  datatype Criteria = Criteria(deployment: Option<DeploymentCriterion>,
                               incidentLogContains: Option<string>,
                               ticketStatus: Option<string>)

  /** `{"valid", "reasons"}`. */
  datatype Verdict = Verdict(valid: bool, reasons: seq<string>)

  /** How an f-string renders a value that may be `None`. */
  function ShowOpt(o: Option<string>): string {
    match o
    case None => "None"
    case Some(v) => v
  }

  // Reference definitions: what it means for each criterion to hold.

  predicate DeploymentMet(s: EnvState, c: Criteria) {
    match c.deployment
    case None => true
    case Some(d) =>
      && d.service.Some? && d.namespace.Some?
      && (d.service.value, d.namespace.value) in s.deployments
      && (d.replicasGte.Some? ==>
            s.deployments[(d.service.value, d.namespace.value)].replicas >= d.replicasGte.value)
  }

  predicate LogMet(s: EnvState, c: Criteria) {
    match c.incidentLogContains
    case None => true
    case Some(sub) => sub == "" || exists i :: 0 <= i < |s.incidentLog| && Contains(s.incidentLog[i].message, sub)
  }

  predicate TicketMet(s: EnvState, c: Criteria) {
    match c.ticketStatus
    case None => true
    case Some(st) => st == "" || s.ticket.status == st
  }

  /** Python's `any(sub in e["message"] for e in log)`, scanning from the front. */
  function AnyMessageContains(log: seq<LogEntry>, sub: string): (b: bool)
    ensures b <==> exists i :: 0 <= i < |log| && Contains(log[i].message, sub)
  {
    if log == [] then false
    else if Contains(log[0].message, sub) then true
    else
      var b := AnyMessageContains(log[1..], sub);
      assert forall i :: 1 <= i < |log| ==> log[i] == log[1..][i - 1];
      b
  }

  /** The reason the deployment criterion adds, if it fails. A missing key
      gives one "missing deployment" reason; with no `replicas_gte`,
      existence alone satisfies the criterion. */
  function DeploymentReason(s: EnvState, c: Criteria): (r: Option<string>)
    ensures r.None? <==> DeploymentMet(s, c)
    ensures c.deployment.Some? && !(c.deployment.value.service.Some? && c.deployment.value.namespace.Some?
                                     && (c.deployment.value.service.value, c.deployment.value.namespace.value)
                                        in s.deployments)
            ==> r == Some("missing deployment " + ShowOpt(c.deployment.value.service) + ":"
                          + ShowOpt(c.deployment.value.namespace))
  {
    match c.deployment
    case None => None
    case Some(d) =>
      if !(d.service.Some? && d.namespace.Some? && (d.service.value, d.namespace.value) in s.deployments)
      then Some("missing deployment " + ShowOpt(d.service) + ":" + ShowOpt(d.namespace))
      else
        var reps := s.deployments[(d.service.value, d.namespace.value)].replicas;
        if d.replicasGte.Some? && reps < d.replicasGte.value
        then Some("replicas " + IntToString(reps) + " < " + IntToString(d.replicasGte.value))
        else None
  }

  /** The reason the incident-log criterion adds, if it fails; an absent or
      empty substring is vacuously satisfied. */
  function LogReason(s: EnvState, c: Criteria): (r: Option<string>)
    ensures r.None? <==> LogMet(s, c)
  {
    match c.incidentLogContains
    case None => None
    case Some(sub) =>
      if sub != "" && !AnyMessageContains(s.incidentLog, sub)
      then Some("incident log missing required message")
      else None
  }

  /** The reason the ticket criterion adds, if it fails; an absent or empty
      required status is vacuously satisfied. */
  function TicketReason(s: EnvState, c: Criteria): (r: Option<string>)
    ensures r.None? <==> TicketMet(s, c)
  {
    match c.ticketStatus
    case None => None
    case Some(st) =>
      if st != "" && s.ticket.status != st
      then Some("ticket status " + s.ticket.status + " != " + st)
      else None
  }

  function Reasons(r: Option<string>): seq<string> {
    match r
    case None => []
    case Some(m) => [m]
  }

  function CountUnmet(a: bool, b: bool, c: bool): nat {
    (if a then 0 else 1) + (if b then 0 else 1) + (if c then 0 else 1)
  }

  /** `check_acceptance`: valid exactly when no reason was collected, which
      is exactly when every criterion holds; each failed criterion adds one
      reason. Criteria with no keys accept every state. */
  function CheckAcceptance(s: EnvState, c: Criteria): (v: Verdict)
    ensures v.valid <==> v.reasons == []
    ensures v.valid <==> DeploymentMet(s, c) && LogMet(s, c) && TicketMet(s, c)
    ensures |v.reasons| == CountUnmet(DeploymentMet(s, c), LogMet(s, c), TicketMet(s, c))
    ensures c == Criteria(None, None, None) ==> v == Verdict(true, [])
  {
    var dep := DeploymentReason(s, c);
    var log := LogReason(s, c);
    var ticket := TicketReason(s, c);
    Verdict(dep.None? && log.None? && ticket.None?, Reasons(dep) + Reasons(log) + Reasons(ticket))
  }

  /** `check_technical_success`: `check_acceptance` without the ticket
      criterion. Its reasons are the acceptance reasons minus the ticket
      reason, so acceptance implies technical success. */
  function CheckTechnicalSuccess(s: EnvState, c: Criteria): (v: Verdict)
    ensures v.valid <==> v.reasons == []
    ensures v.valid <==> DeploymentMet(s, c) && LogMet(s, c)
    ensures CheckAcceptance(s, c).reasons == v.reasons + Reasons(TicketReason(s, c))
    ensures CheckAcceptance(s, c).valid ==> v.valid
  {
    var dep := DeploymentReason(s, c);
    var log := LogReason(s, c);
    Verdict(dep.None? && log.None?, Reasons(dep) + Reasons(log))
  }

  /** Technical success does not depend on the ticket at all. */
  lemma TechnicalIgnoresTicket(s: EnvState, c: Criteria, t: Ticket)
    ensures CheckTechnicalSuccess(s.(ticket := t), c) == CheckTechnicalSuccess(s, c)
  {
  }

  /** A state that meets the deployment and log criteria but has the wrong
      ticket status is a technical success and not accepted. */
  lemma WrongTicketOnlyFailsAcceptance(s: EnvState, c: Criteria)
    requires DeploymentMet(s, c) && LogMet(s, c) && !TicketMet(s, c)
    ensures CheckTechnicalSuccess(s, c).valid && !CheckAcceptance(s, c).valid
    ensures CheckAcceptance(s, c).reasons == [TicketReason(s, c).value]
  {
  }

  // Partial credit.

  const ActionTools: set<string> := {"k8s_scale", "k8s_restart", "feature_flag_set"}

  /** Some trace entry invoked the tool `name`, whatever its result. */
  predicate Invoked(calls: seq<TraceEntry>, name: string) {
    exists i :: 0 <= i < |calls| && calls[i].call.name == name
  }

  /** Some `metrics_query` call comes strictly after some action call
      (scale, restart or flag change), successful or not. */
  predicate VerifiedAfterAction(calls: seq<TraceEntry>) {
    exists i, j :: 0 <= i < j < |calls| && calls[i].call.name in ActionTools
                                       && calls[j].call.name == "metrics_query"
  }

  /** As written (src/scoring.py:72): a failed result whose error text
      contains "argument error". */
  predicate ArgumentFailureAsWritten(r: ToolResult) {
    r.Failure? && Contains(ErrorText(r.error), "argument error")
  }

  /** As intended: a failure the dispatcher reports because the arguments
      could not be bound. */
  predicate ArgumentFailure(r: ToolResult) {
    r.Failure? && r.error.ArgumentError?
  }

  /** Every binding failure is caught by the substring test as well. */
  lemma ArgumentFailureIsFlaggedAsWritten(r: ToolResult)
    ensures ArgumentFailure(r) ==> ArgumentFailureAsWritten(r)
  {
    if ArgumentFailure(r) {
      var p := "argument error: ";
      var text := p + r.error.tool + "() " + BindProblemText(r.error.problem);
      assert text == ErrorText(r.error);
      assert text[..14] == p[..14] == "argument error";
      assert OccursAt(text, "argument error", 0);
    }
  }

  /** The substring test misfires when an error echoes caller text: an
      unknown tool named "argument error" is not an argument error. */
  lemma EchoedNameTripsSubstringTest()
    ensures var r := Failure(UnknownTool("argument error"));
            ArgumentFailureAsWritten(r) && !ArgumentFailure(r)
  {
    var text := ErrorText(UnknownTool("argument error"));
    assert text == "unknown tool: " + "argument error";
    assert OccursAt(text, "argument error", 14);
  }

  /** Range failures never trip the substring test: their texts hold only a
      fixed prefix and the digits of a number. */
  lemma RangeFailuresNotFlagged(n: int)
    ensures !ArgumentFailureAsWritten(Failure(ReplicasOutOfRange(n)))
    ensures !ArgumentFailureAsWritten(Failure(MinutesOutOfRange(n)))
  {
    NumberTextAvoids("replicas out of range: ", n);
    NumberTextAvoids("minutes out of range: ", n);
  }

  /** No `a` of `s` is directly followed by an `r`. */
  predicate NoAr(s: string) {
    forall i :: 0 <= i < |s| - 1 ==> !(s[i] == 'a' && s[i + 1] == 'r')
  }

  /** "argument error" starts with "ar", so a text without "ar" avoids it. */
  lemma NoArAvoids(text: string)
    requires NoAr(text)
    ensures !Contains(text, "argument error")
  {
    var pat := "argument error";
    forall i | 0 <= i <= |text| - |pat| ensures !OccursAt(text, pat, i) {
      assert !(text[i] == 'a' && text[i + 1] == 'r');
      assert text[i..i + |pat|][0] == text[i] && text[i..i + |pat|][1] == text[i + 1];
    }
  }

  lemma RangePrefixesNoAr()
    ensures NoAr("replicas out of range: ") && NoAr("minutes out of range: ")
  { }

  /** The digits and sign of a number hold no `r`, and the prefixes end in
      a blank, so gluing them on creates no "ar". */
  lemma NumberTextAvoids(prefix: string, n: int)
    requires prefix == "replicas out of range: " || prefix == "minutes out of range: "
    ensures !Contains(prefix + IntToString(n), "argument error")
  {
    var d := IntToString(n);
    var text := prefix + d;
    RangePrefixesNoAr();
    forall i | 0 <= i < |text| - 1 ensures !(text[i] == 'a' && text[i + 1] == 'r') {
      if i + 1 < |prefix| {
        assert text[i] == prefix[i] && text[i + 1] == prefix[i + 1];
      } else {
        assert text[i + 1] == d[i + 1 - |prefix|];
      }
    }
    NoArAvoids(text);
  }

  /** `{"tool_syntax_ok", "verification_performed", "incident_logged",
      "ticket_updated"}`. */
  datatype PartialCredit = PartialCredit(toolSyntaxOk: bool, verificationPerformed: bool,
                                         incidentLogged: bool, ticketUpdated: bool)

  /** What the four signals mean, stated over the whole trace. */
  function PartialCreditOf(calls: seq<TraceEntry>): PartialCredit {
    PartialCredit(!(exists i :: 0 <= i < |calls| && ArgumentFailure(calls[i].result)),
                  VerifiedAfterAction(calls),
                  Invoked(calls, "incident_log"),
                  Invoked(calls, "ticket_update"))
  }

  /** The four signals with `tool_syntax_ok` as src/scoring.py:72 computes
      it, by the substring test on the error text. */
  function PartialCreditAsWritten(calls: seq<TraceEntry>): PartialCredit {
    PartialCreditOf(calls).(toolSyntaxOk := !(exists i :: 0 <= i < |calls| && ArgumentFailureAsWritten(calls[i].result)))
  }

  /** The substring test flags every argument error and possibly more, so
      clean syntax as written implies clean syntax as intended; the other
      three signals agree. */
  lemma AsWrittenSyntaxImpliesCorrected(calls: seq<TraceEntry>)
    ensures PartialCreditAsWritten(calls).toolSyntaxOk ==> PartialCreditOf(calls).toolSyntaxOk
    ensures PartialCreditAsWritten(calls).(toolSyntaxOk := true) == PartialCreditOf(calls).(toolSyntaxOk := true)
  {
    forall i | 0 <= i < |calls| ensures ArgumentFailure(calls[i].result) ==> ArgumentFailureAsWritten(calls[i].result) {
      ArgumentFailureIsFlaggedAsWritten(calls[i].result);
    }
  }

  /** A trace whose only call names an unknown tool "argument error" loses
      clean syntax as written, and keeps it as intended. */
  lemma EchoedNameLosesSyntaxAsWritten()
    ensures var calls := [TraceEntry(1, ToolCall("argument error", map[]), Failure(UnknownTool("argument error")))];
            !PartialCreditAsWritten(calls).toolSyntaxOk && PartialCreditOf(calls).toolSyntaxOk
  {
    var calls := [TraceEntry(1, ToolCall("argument error", map[]), Failure(UnknownTool("argument error")))];
    EchoedNameTripsSubstringTest();
    assert ArgumentFailureAsWritten(calls[0].result);
  }

  /** `partial_credit`: one pass over the trace that remembers whether an
      action has been seen, and flags a later `metrics_query`. */
  method ComputePartialCredit(calls: seq<TraceEntry>) returns (p: PartialCredit)
    ensures p == PartialCreditOf(calls)
  {
    var anyArgError := exists i | 0 <= i < |calls| :: ArgumentFailure(calls[i].result);
    var incidentLogged := exists i | 0 <= i < |calls| :: calls[i].call.name == "incident_log";
    var ticketUpdated := exists i | 0 <= i < |calls| :: calls[i].call.name == "ticket_update";
    var verification := false;
    var didAction := false;
    for n := 0 to |calls|
      invariant didAction <==> exists i :: 0 <= i < n && calls[i].call.name in ActionTools
      invariant verification <==> exists i, j :: 0 <= i < j < n && calls[i].call.name in ActionTools
                                                  && calls[j].call.name == "metrics_query"
    {
      var name := calls[n].call.name;
      if name in ActionTools {
        didAction := true;
      }
      if didAction && name == "metrics_query" {
        verification := true;
      }
    }
    p := PartialCredit(!anyArgError, verification, incidentLogged, ticketUpdated);
  }

  // Weighted composite score, in whole percentage points.

  const TechnicalWeight: int := 60
  const TicketWeight: int := 15
  const IncidentWeight: int := 15
  const VerificationWeight: int := 5
  const SyntaxWeight: int := 5

  /** The five weighted components (or the five weights). */
  datatype Breakdown = Breakdown(technicalTask: int, ticketUpdated: int, incidentLogged: int,
                                 verification: int, toolSyntax: int)

  function Sum(b: Breakdown): int {
    b.technicalTask + b.ticketUpdated + b.incidentLogged + b.verification + b.toolSyntax
  }

  datatype WeightedScore = WeightedScore(totalScore: int, maxScore: int, breakdown: Breakdown,
                                         weights: Breakdown)

  function Earned(signal: bool, weight: int): int { if signal then weight else 0 }

  /** `compute_weighted_score`: the total is the sum of the breakdown, lies
      in [0, 100], and is 100 exactly when all five signals hold. The
      acceptance verdict is not used. */
  function ComputeWeightedScore(acceptance: Verdict, partial: PartialCredit, technical: Verdict): (w: WeightedScore)
    ensures w.totalScore == Sum(w.breakdown)
    ensures 0 <= w.totalScore <= w.maxScore == 100
    ensures w.totalScore == 100 <==> technical.valid && partial.ticketUpdated && partial.incidentLogged
                                     && partial.verificationPerformed && partial.toolSyntaxOk
    ensures technical.valid <==> w.totalScore >= TechnicalWeight
  {
    var technicalScore := technical.valid;
    var total := Earned(technicalScore, TechnicalWeight) + Earned(partial.ticketUpdated, TicketWeight)
                 + Earned(partial.incidentLogged, IncidentWeight)
                 + Earned(partial.verificationPerformed, VerificationWeight)
                 + Earned(partial.toolSyntaxOk, SyntaxWeight);
    WeightedScore(total, 100,
                  Breakdown(Earned(technicalScore, TechnicalWeight), Earned(partial.ticketUpdated, TicketWeight),
                            Earned(partial.incidentLogged, IncidentWeight),
                            Earned(partial.verificationPerformed, VerificationWeight),
                            Earned(partial.toolSyntaxOk, SyntaxWeight)),
                  Breakdown(TechnicalWeight, TicketWeight, IncidentWeight, VerificationWeight, SyntaxWeight))
  }

  lemma ScoreIgnoresAcceptance(a1: Verdict, a2: Verdict, partial: PartialCredit, technical: Verdict)
    ensures ComputeWeightedScore(a1, partial, technical) == ComputeWeightedScore(a2, partial, technical)
  {
  }
}
