/** The simulated incident-response environment and the six tools that read
    or change it (src/tools.py).

    The environment's abstract value is `EnvState`. Each tool is specified by
    a function (`K8sScaleEffect`, ...) from the old state and the arguments to
    the new state and the uniform result, and is implemented by a method of
    class `Env`, which holds the same state in mutable fields and changes it
    in place as the Python functions do. */
module Tools {
  import opened Prelude

  /** A reading of the wall clock (`time.time()`); the model receives it as
      an input instead of reading a clock. */
  type Timestamp = real

  /** A deployment is identified by the pair (service, namespace). */
  type Key = (string, string)

  datatype Deployment = Deployment(service: string, namespace: string, replicas: int,
                                   restartedAt: Option<Timestamp>)

  function KeyOf(d: Deployment): Key { (d.service, d.namespace) }

  datatype Ticket = Ticket(status: string, note: string)

  datatype LogEntry = LogEntry(ts: Timestamp, severity: string, message: string)

  /** The whole environment. `order` is the insertion order of the
      `deployments` dictionary, which Python dictionaries remember and the
      final snapshot depends on. `seed` only feeds the synthetic metrics. */
  datatype EnvState = EnvState(deployments: map<Key, Deployment>, order: seq<Key>,
                               featureFlags: map<string, bool>, ticket: Ticket,
                               incidentLog: seq<LogEntry>, seed: int)

  const DefaultSeed: int := 42
  const DefaultTicket: Ticket := Ticket("open", "")
  /** `EnvState()` with every field at its default. */
  const EmptyEnv: EnvState := EnvState(map[], [], map[], DefaultTicket, [], DefaultSeed)

  /** Every deployment is stored under its own key, and `order` lists each
      key exactly once. */
  predicate WellFormed(s: EnvState) {
    && (forall k :: k in s.deployments ==> KeyOf(s.deployments[k]) == k)
    && (forall i :: 0 <= i < |s.order| ==> s.order[i] in s.deployments)
    && (forall k :: k in s.deployments ==> k in s.order)
    && (forall i, j :: 0 <= i < j < |s.order| ==> s.order[i] != s.order[j])
  }

  const Metrics: set<string> := {"latency_p95", "error_rate", "qps"}
  const Severities: set<string> := {"info", "warning", "critical"}
  const TicketStatuses: set<string> := {"open", "investigating", "mitigated", "resolved"}
  const MinReplicas: int := 1
  const MaxReplicas: int := 100
  const MinMinutes: int := 1
  const MaxMinutes: int := 120

  /** Why a call's arguments could not be bound to the tool's parameters. */
  datatype BindProblem = UnexpectedArgument | MissingArgument | WrongType

  /** Every error a tool call can report. The last two come from the
      dispatcher rather than from a tool. */
  datatype ToolError =
    | InvalidMetric(metric: string)
    | MinutesOutOfRange(minutes: int)
    | UnknownDeployment(service: string, namespace: string)
    | ReplicasOutOfRange(replicas: int)
    | InvalidSeverity(severity: string)
    | InvalidStatus(status: string)
    | UnknownTool(name: string)
    | ArgumentError(tool: string, problem: BindProblem)

  function BindProblemText(p: BindProblem): string {
    match p
    case UnexpectedArgument => "got an unexpected keyword argument"
    case MissingArgument => "missing a required argument"
    case WrongType => "got an argument of the wrong type"
  }

  /** The `error` string of a failed result, as the f-strings render it. */
  function ErrorText(e: ToolError): string {
    match e
    case InvalidMetric(m) => "invalid metric: " + m
    case MinutesOutOfRange(n) => "minutes out of range: " + IntToString(n)
    case UnknownDeployment(svc, ns) => "unknown deployment: " + svc + " in " + ns
    case ReplicasOutOfRange(n) => "replicas out of range: " + IntToString(n)
    case InvalidSeverity(sev) => "invalid severity: " + sev
    case InvalidStatus(st) => "invalid status: " + st
    case UnknownTool(name) => "unknown tool: " + name
    case ArgumentError(tool, p) => "argument error: " + tool + "() " + BindProblemText(p)
  }

  /** The `data` mapping of a successful result. The metric's synthetic
      value, status tier and recommendation are not modelled. */
  datatype Payload =
    | MetricsData(metric: string, minutes: int)
    | ScaleData(service: string, namespace: string, replicas: int)
    | RestartData(service: string, namespace: string, restartedAt: Timestamp)
    | FlagData(flag: string, enabled: bool)
    | LogData(entry: LogEntry)
    | TicketData(status: string, note: string)

  /** `ToolResult{ok, data, error}`: a success carries data and no error, a
      failure an error and no data. */
  datatype ToolResult = Success(data: Payload) | Failure(error: ToolError) {
    predicate ok() { Success? }
  }

  /** A tool's new environment together with its result. */
  datatype Effect = Effect(env: EnvState, result: ToolResult)

  /** The state that a result reports: the change its payload describes,
      applied to `s`. Failures and metric readings report no change. */
  function AsReported(s: EnvState, r: ToolResult): EnvState {
    match r
    case Failure(_) => s
    case Success(d) =>
      match d
      case MetricsData(_, _) => s
      case ScaleData(svc, ns, n) =>
        if (svc, ns) in s.deployments
        then s.(deployments := s.deployments[(svc, ns) := s.deployments[(svc, ns)].(replicas := n)])
        else s
      case RestartData(svc, ns, ts) =>
        if (svc, ns) in s.deployments
        then s.(deployments := s.deployments[(svc, ns) := s.deployments[(svc, ns)].(restartedAt := Some(ts))])
        else s
      case FlagData(f, b) => s.(featureFlags := s.featureFlags[f := b])
      case LogData(entry) => s.(incidentLog := s.incidentLog + [entry])
      case TicketData(st, note) => s.(ticket := Ticket(st, note))
  }

  /** `metrics_query`: checks the metric name, then the window, then the
      deployment, and never changes the environment. */
  function MetricsQueryResult(s: EnvState, service: string, metric: string, minutes: int,
                              namespace: string): (r: ToolResult)
    ensures r.ok() <==> metric in Metrics && MinMinutes <= minutes <= MaxMinutes
                        && (service, namespace) in s.deployments
    ensures metric !in Metrics ==> r == Failure(InvalidMetric(metric))
    ensures metric in Metrics && !(MinMinutes <= minutes <= MaxMinutes)
            ==> r == Failure(MinutesOutOfRange(minutes))
    ensures metric in Metrics && MinMinutes <= minutes <= MaxMinutes && (service, namespace) !in s.deployments
            ==> r == Failure(UnknownDeployment(service, namespace))
    ensures r.ok() ==> r.data == MetricsData(metric, minutes)
    ensures AsReported(s, r) == s
  {
    if metric !in Metrics then Failure(InvalidMetric(metric))
    else if minutes <= 0 || minutes > MaxMinutes then Failure(MinutesOutOfRange(minutes))
    else if (service, namespace) !in s.deployments then Failure(UnknownDeployment(service, namespace))
    else Success(MetricsData(metric, minutes))
  }

  /** `k8s_scale`: the range check comes before the lookup; a success sets
      the target's replica count and nothing else. */
  function K8sScaleEffect(s: EnvState, service: string, replicas: int, namespace: string): (e: Effect)
    ensures e.result.ok() <==> MinReplicas <= replicas <= MaxReplicas && (service, namespace) in s.deployments
    ensures !(MinReplicas <= replicas <= MaxReplicas) ==> e.result == Failure(ReplicasOutOfRange(replicas))
    ensures MinReplicas <= replicas <= MaxReplicas && (service, namespace) !in s.deployments
            ==> e.result == Failure(UnknownDeployment(service, namespace))
    ensures !e.result.ok() ==> e.env == s
    ensures e.result.ok() ==>
              && e.result.data == ScaleData(service, namespace, replicas)
              && e.env.deployments.Keys == s.deployments.Keys
              && e.env.deployments[(service, namespace)]
                 == s.deployments[(service, namespace)].(replicas := replicas)
              && (forall k :: k in s.deployments && k != (service, namespace) ==>
                                e.env.deployments[k] == s.deployments[k])
              && e.env.(deployments := s.deployments) == s
    ensures e.env == AsReported(s, e.result)
    ensures WellFormed(s) ==> WellFormed(e.env)
  {
    if replicas < MinReplicas || replicas > MaxReplicas then Effect(s, Failure(ReplicasOutOfRange(replicas)))
    else if (service, namespace) !in s.deployments then Effect(s, Failure(UnknownDeployment(service, namespace)))
    else
      var key := (service, namespace);
      Effect(s.(deployments := s.deployments[key := s.deployments[key].(replicas := replicas)]),
             Success(ScaleData(service, namespace, replicas)))
  }

  /** `k8s_restart`: stamps the target's restart time; no replica count
      changes. */
  function K8sRestartEffect(s: EnvState, service: string, namespace: string, now: Timestamp): (e: Effect)
    ensures e.result.ok() <==> (service, namespace) in s.deployments
    ensures !e.result.ok() ==> e.result == Failure(UnknownDeployment(service, namespace)) && e.env == s
    ensures e.env.deployments.Keys == s.deployments.Keys
    ensures forall k :: k in s.deployments ==> e.env.deployments[k].replicas == s.deployments[k].replicas
    ensures e.result.ok() ==>
              && e.result.data == RestartData(service, namespace, now)
              && e.env.deployments[(service, namespace)].restartedAt == Some(now)
              && (forall k :: k in s.deployments && k != (service, namespace) ==>
                                e.env.deployments[k] == s.deployments[k])
              && e.env.(deployments := s.deployments) == s
    ensures e.env == AsReported(s, e.result)
    ensures WellFormed(s) ==> WellFormed(e.env)
  {
    var key := (service, namespace);
    if key !in s.deployments then Effect(s, Failure(UnknownDeployment(service, namespace)))
    else
      Effect(s.(deployments := s.deployments[key := s.deployments[key].(restartedAt := Some(now))]),
             Success(RestartData(service, namespace, now)))
  }

  /** `feature_flag_set`: always succeeds; inserts or overwrites one flag. */
  function FeatureFlagSetEffect(s: EnvState, flag: string, enabled: bool): (e: Effect)
    ensures e.result == Success(FlagData(flag, enabled))
    ensures e.env.featureFlags.Keys == s.featureFlags.Keys + {flag}
    ensures e.env.featureFlags[flag] == enabled
    ensures forall f :: f in s.featureFlags && f != flag ==> e.env.featureFlags[f] == s.featureFlags[f]
    ensures e.env.(featureFlags := s.featureFlags) == s
    ensures e.env == AsReported(s, e.result)
    ensures WellFormed(s) ==> WellFormed(e.env)
  {
    Effect(s.(featureFlags := s.featureFlags[flag := enabled]), Success(FlagData(flag, enabled)))
  }

  /** `incident_log`: a valid severity appends exactly one entry and keeps
      the earlier entries as a prefix; an invalid one changes nothing. */
  function IncidentLogEffect(s: EnvState, message: string, severity: string, now: Timestamp): (e: Effect)
    ensures e.result.ok() <==> severity in Severities
    ensures severity !in Severities ==> e.result == Failure(InvalidSeverity(severity)) && e.env == s
    ensures severity in Severities ==>
              && e.result == Success(LogData(LogEntry(now, severity, message)))
              && |e.env.incidentLog| == |s.incidentLog| + 1
              && e.env.incidentLog[..|s.incidentLog|] == s.incidentLog
              && e.env.incidentLog[|s.incidentLog|] == LogEntry(now, severity, message)
              && e.env.(incidentLog := s.incidentLog) == s
    ensures e.env == AsReported(s, e.result)
    ensures WellFormed(s) ==> WellFormed(e.env)
  {
    if severity !in Severities then Effect(s, Failure(InvalidSeverity(severity)))
    else
      var entry := LogEntry(now, severity, message);
      Effect(s.(incidentLog := s.incidentLog + [entry]), Success(LogData(entry)))
  }

  /** `ticket_update`: a valid status overwrites both status and note; an
      invalid one leaves the ticket untouched. */
  function TicketUpdateEffect(s: EnvState, status: string, note: string): (e: Effect)
    ensures e.result.ok() <==> status in TicketStatuses
    ensures status !in TicketStatuses ==> e.result == Failure(InvalidStatus(status)) && e.env == s
    ensures status in TicketStatuses ==>
              && e.result == Success(TicketData(status, note))
              && e.env.ticket == Ticket(status, note)
              && e.env.(ticket := s.ticket) == s
    ensures e.env == AsReported(s, e.result)
    ensures WellFormed(s) ==> WellFormed(e.env)
  {
    if status !in TicketStatuses then Effect(s, Failure(InvalidStatus(status)))
    else Effect(s.(ticket := Ticket(status, note)), Success(TicketData(status, note)))
  }

  /** The entries of `TOOL_REGISTRY`. */
  datatype Tool =
    | MetricsQueryTool | K8sScaleTool | K8sRestartTool
    | FeatureFlagSetTool | IncidentLogTool | TicketUpdateTool

  /** The registry key of each tool. */
  function ToolName(t: Tool): string {
    match t
    case MetricsQueryTool => "metrics_query"
    case K8sScaleTool => "k8s_scale"
    case K8sRestartTool => "k8s_restart"
    case FeatureFlagSetTool => "feature_flag_set"
    case IncidentLogTool => "incident_log"
    case TicketUpdateTool => "ticket_update"
  }

  /** The keyword parameters of each tool function, besides `env`. */
  function Params(t: Tool): set<string> {
    match t
    case MetricsQueryTool => {"service", "metric", "minutes", "namespace"}
    case K8sScaleTool => {"service", "replicas", "namespace"}
    case K8sRestartTool => {"service", "namespace"}
    case FeatureFlagSetTool => {"flag", "enabled"}
    case IncidentLogTool => {"message", "severity"}
    case TicketUpdateTool => {"status", "note"}
  }

  /** `TOOL_REGISTRY.get(name)`: the tool registered under `name`, if any. */
  function Lookup(name: string): (r: Option<Tool>)
    ensures r.Some? ==> ToolName(r.value) == name
    ensures r.None? ==> forall t: Tool :: ToolName(t) != name
  {
    if name == "metrics_query" then Some(MetricsQueryTool)
    else if name == "k8s_scale" then Some(K8sScaleTool)
    else if name == "k8s_restart" then Some(K8sRestartTool)
    else if name == "feature_flag_set" then Some(FeatureFlagSetTool)
    else if name == "incident_log" then Some(IncidentLogTool)
    else if name == "ticket_update" then Some(TicketUpdateTool)
    else None
  }

  /** The registry maps every tool's name back to that tool, so names are
      distinct. */
  lemma LookupToolName(t: Tool)
    ensures Lookup(ToolName(t)) == Some(t)
  {
  }

  /** The environment as the Python program holds it: one object whose
      fields the tools update in place. */
  class Env {
    var deployments: map<Key, Deployment>
    var order: seq<Key>
    var featureFlags: map<string, bool>
    var ticket: Ticket
    var incidentLog: seq<LogEntry>
    const seed: int

    function State(): EnvState
      reads this
    {
      EnvState(deployments, order, featureFlags, ticket, incidentLog, seed)
    }

    /** The object's state is well formed; every method keeps it so. */
    predicate Valid()
      reads this
    {
      WellFormed(State())
    }

    /** `EnvState()`: no deployments, no flags, an open ticket, an empty log. */
    constructor ()
      ensures State() == EmptyEnv
      ensures Valid()
    {
      deployments := map[];
      order := [];
      featureFlags := map[];
      ticket := DefaultTicket;
      incidentLog := [];
      seed := DefaultSeed;
    }

    /** `metrics_query`; it has no `modifies` clause, so it changes nothing. */
    method MetricsQuery(service: string, metric: string, minutes: int, namespace: string)
      returns (r: ToolResult)
      ensures r == MetricsQueryResult(State(), service, metric, minutes, namespace)
    {
      if metric !in Metrics {
        return Failure(InvalidMetric(metric));
      }
      if minutes <= 0 || minutes > MaxMinutes {
        return Failure(MinutesOutOfRange(minutes));
      }
      if (service, namespace) !in deployments {
        return Failure(UnknownDeployment(service, namespace));
      }
      r := Success(MetricsData(metric, minutes));
    }

    method K8sScale(service: string, replicas: int, namespace: string) returns (r: ToolResult)
      modifies this
      ensures State() == K8sScaleEffect(old(State()), service, replicas, namespace).env
      ensures r == K8sScaleEffect(old(State()), service, replicas, namespace).result
      ensures old(Valid()) ==> Valid()
    {
      if replicas < MinReplicas || replicas > MaxReplicas {
        return Failure(ReplicasOutOfRange(replicas));
      }
      var key := (service, namespace);
      if key !in deployments {
        return Failure(UnknownDeployment(service, namespace));
      }
      deployments := deployments[key := deployments[key].(replicas := replicas)];
      r := Success(ScaleData(service, namespace, replicas));
    }

    method K8sRestart(service: string, namespace: string, now: Timestamp) returns (r: ToolResult)
      modifies this
      ensures State() == K8sRestartEffect(old(State()), service, namespace, now).env
      ensures r == K8sRestartEffect(old(State()), service, namespace, now).result
      ensures old(Valid()) ==> Valid()
    {
      var key := (service, namespace);
      if key !in deployments {
        return Failure(UnknownDeployment(service, namespace));
      }
      deployments := deployments[key := deployments[key].(restartedAt := Some(now))];
      r := Success(RestartData(service, namespace, now));
    }

    method FeatureFlagSet(flag: string, enabled: bool) returns (r: ToolResult)
      modifies this
      ensures State() == FeatureFlagSetEffect(old(State()), flag, enabled).env
      ensures r == FeatureFlagSetEffect(old(State()), flag, enabled).result
      ensures old(Valid()) ==> Valid()
    {
      featureFlags := featureFlags[flag := enabled];
      r := Success(FlagData(flag, enabled));
    }

    method IncidentLog(message: string, severity: string, now: Timestamp) returns (r: ToolResult)
      modifies this
      ensures State() == IncidentLogEffect(old(State()), message, severity, now).env
      ensures r == IncidentLogEffect(old(State()), message, severity, now).result
      ensures old(Valid()) ==> Valid()
    {
      if severity !in Severities {
        return Failure(InvalidSeverity(severity));
      }
      var entry := LogEntry(now, severity, message);
      incidentLog := incidentLog + [entry];
      r := Success(LogData(entry));
    }

    method TicketUpdate(status: string, note: string) returns (r: ToolResult)
      modifies this
      ensures State() == TicketUpdateEffect(old(State()), status, note).env
      ensures r == TicketUpdateEffect(old(State()), status, note).result
      ensures old(Valid()) ==> Valid()
    {
      if status !in TicketStatuses {
        return Failure(InvalidStatus(status));
      }
      ticket := Ticket(status, note);
      r := Success(TicketData(status, note));
    }
  }
}
