/** Building an environment from a scenario's description, dispatching one
    tool call by name, replaying a scripted call list, and the final
    snapshot (src/harness.py). The conversation with a live model is in
    module `Conversation`. */
module Harness {
  import opened Prelude
  import opened Tools
  import opened Trace

  // ---------------------------------------------------------------------
  // build_env

  /** One element of the description's `deployments` list; `replicas` may
      be absent. */
  datatype DeploymentSpec = DeploymentSpec(service: string, namespace: string, replicas: Option<int>)

  /** The description's `ticket` mapping, whose two keys may be absent. */
  datatype TicketSpec = TicketSpec(status: Option<string>, note: Option<string>)

  /** The initial-state description. An absent `deployments` or
      `feature_flags` key is an empty list; the flags are given in the
      iteration order of the decoded mapping. */
  datatype InitialState = InitialState(deployments: seq<DeploymentSpec>,
                                       featureFlags: seq<(string, Json)>,
                                       ticket: Option<TicketSpec>)

  function SpecKey(d: DeploymentSpec): Key { (d.service, d.namespace) }

  /** The deployment a spec describes: one replica unless stated, never
      restarted. */
  function DeploymentOf(d: DeploymentSpec): Deployment {
    Deployment(d.service, d.namespace, if d.replicas.Some? then d.replicas.value else 1, None)
  }

  /** `env.deployments[key] = ...`: a new key goes to the end of the
      insertion order, an existing key keeps its place. */
  function PlaceDeployment(s: EnvState, d: DeploymentSpec): EnvState {
    var key := SpecKey(d);
    s.(deployments := s.deployments[key := DeploymentOf(d)],
       order := if key in s.deployments then s.order else s.order + [key])
  }

  function PlaceAll(s: EnvState, ds: seq<DeploymentSpec>): EnvState
    decreases |ds|
  {
    if ds == [] then s else PlaceDeployment(PlaceAll(s, ds[..|ds| - 1]), ds[|ds| - 1])
  }

  /** `env.feature_flags[k] = bool(v)` for each pair in turn. */
  function SetFlags(flags: map<string, bool>, fs: seq<(string, Json)>): map<string, bool>
    decreases |fs|
  {
    if fs == [] then flags
    else SetFlags(flags, fs[..|fs| - 1])[fs[|fs| - 1].0 := Truthy(fs[|fs| - 1].1)]
  }

  function ApplyTicket(t: Ticket, spec: Option<TicketSpec>): Ticket {
    match spec
    case None => t
    case Some(ts) =>
      Ticket(if ts.status.Some? then ts.status.value else t.status,
             if ts.note.Some? then ts.note.value else t.note)
  }

  /** The environment `build_env` returns: only the deployments, the flags
      and the ticket come from the description; the log is empty and the
      seed is the default. A ticket key that is absent leaves the default
      open ticket with an empty note. */
  function InitialEnv(init: InitialState): (s: EnvState)
    ensures s.incidentLog == [] && s.seed == DefaultSeed
    ensures init.ticket.None? ==> s.ticket == DefaultTicket
    ensures init.ticket.Some? ==>
              && s.ticket.status == (if init.ticket.value.status.Some? then init.ticket.value.status.value else "open")
              && s.ticket.note == (if init.ticket.value.note.Some? then init.ticket.value.note.value else "")
  {
    var placed := PlaceAll(EmptyEnv, init.deployments);
    PlaceAllFrame(EmptyEnv, init.deployments);
    placed.(featureFlags := SetFlags(map[], init.featureFlags),
            ticket := ApplyTicket(DefaultTicket, init.ticket))
  }

  lemma {:induction false} PlaceAllFrame(s: EnvState, ds: seq<DeploymentSpec>)
    ensures PlaceAll(s, ds).(deployments := s.deployments, order := s.order) == s
    decreases |ds|
  {
    if ds != [] {
      PlaceAllFrame(s, ds[..|ds| - 1]);
    }
  }

  /** Placing deployments keeps the environment well formed. */
  lemma {:induction false} PlaceAllWellFormed(s: EnvState, ds: seq<DeploymentSpec>)
    requires WellFormed(s)
    ensures WellFormed(PlaceAll(s, ds))
    decreases |ds|
  {
    if ds != [] {
      PlaceAllWellFormed(s, ds[..|ds| - 1]);
      var p := PlaceAll(s, ds[..|ds| - 1]);
      var key := SpecKey(ds[|ds| - 1]);
      if key !in p.deployments {
        assert key !in p.order;
      }
    }
  }

  /** The deployments are keyed exactly by the described (service,
      namespace) pairs. */
  lemma {:induction false} PlaceAllKeys(s: EnvState, ds: seq<DeploymentSpec>)
    ensures PlaceAll(s, ds).deployments.Keys == s.deployments.Keys + set i | 0 <= i < |ds| :: SpecKey(ds[i])
    decreases |ds|
  {
    if ds != [] {
      var init := ds[..|ds| - 1];
      PlaceAllKeys(s, init);
      assert forall i :: 0 <= i < |init| ==> init[i] == ds[i];
      assert (set i | 0 <= i < |ds| :: SpecKey(ds[i]))
             == (set i | 0 <= i < |init| :: SpecKey(init[i])) + {SpecKey(ds[|ds| - 1])};
    }
  }

  /** When a pair is described more than once, the last description wins. */
  lemma {:induction false} PlaceAllLastWins(s: EnvState, ds: seq<DeploymentSpec>, i: int)
    requires 0 <= i < |ds|
    requires forall j :: i < j < |ds| ==> SpecKey(ds[j]) != SpecKey(ds[i])
    ensures SpecKey(ds[i]) in PlaceAll(s, ds).deployments
    ensures PlaceAll(s, ds).deployments[SpecKey(ds[i])] == DeploymentOf(ds[i])
    decreases |ds|
  {
    if i < |ds| - 1 {
      var init := ds[..|ds| - 1];
      assert forall j :: 0 <= j < |init| ==> init[j] == ds[j];
      PlaceAllLastWins(s, init, i);
    }
  }

  /** `build_env` on a whole description: a well-formed environment whose
      deployments are exactly the described ones, the last description of
      a pair winning with its replica count (one when none is given) and
      no restart, and whose flags are exactly the listed names, each set
      from its last listed value. */
  lemma InitialEnvProperties(init: InitialState)
    ensures WellFormed(InitialEnv(init))
    ensures InitialEnv(init).deployments.Keys == set i | 0 <= i < |init.deployments| :: SpecKey(init.deployments[i])
    ensures forall i :: 0 <= i < |init.deployments| &&
                        (forall j :: i < j < |init.deployments| ==>
                                       SpecKey(init.deployments[j]) != SpecKey(init.deployments[i])) ==>
                          var d := init.deployments[i];
                          && InitialEnv(init).deployments[SpecKey(d)].service == d.service
                          && InitialEnv(init).deployments[SpecKey(d)].namespace == d.namespace
                          && InitialEnv(init).deployments[SpecKey(d)].replicas
                             == (if d.replicas.Some? then d.replicas.value else 1)
                          && InitialEnv(init).deployments[SpecKey(d)].restartedAt == None
    ensures InitialEnv(init).featureFlags == SetFlags(map[], init.featureFlags)
    ensures InitialEnv(init).featureFlags.Keys == set i | 0 <= i < |init.featureFlags| :: init.featureFlags[i].0
    ensures forall i :: 0 <= i < |init.featureFlags| &&
                        (forall j :: i < j < |init.featureFlags| ==> init.featureFlags[j].0 != init.featureFlags[i].0) ==>
                          InitialEnv(init).featureFlags[init.featureFlags[i].0] == Truthy(init.featureFlags[i].1)
  {
    PlaceAllWellFormed(EmptyEnv, init.deployments);
    PlaceAllKeys(EmptyEnv, init.deployments);
    SetFlagsKeys(init.featureFlags);
    forall i | 0 <= i < |init.deployments| &&
               (forall j :: i < j < |init.deployments| ==>
                              SpecKey(init.deployments[j]) != SpecKey(init.deployments[i]))
      ensures InitialEnv(init).deployments[SpecKey(init.deployments[i])] == DeploymentOf(init.deployments[i])
    {
      PlaceAllLastWins(EmptyEnv, init.deployments, i);
    }
    forall i | 0 <= i < |init.featureFlags| &&
               (forall j :: i < j < |init.featureFlags| ==> init.featureFlags[j].0 != init.featureFlags[i].0)
      ensures InitialEnv(init).featureFlags[init.featureFlags[i].0] == Truthy(init.featureFlags[i].1)
    {
      SetFlagsLastWins(init.featureFlags, i);
    }
  }

  /** The flags set are exactly the listed names. */
  lemma {:induction false} SetFlagsKeys(fs: seq<(string, Json)>)
    ensures SetFlags(map[], fs).Keys == set i | 0 <= i < |fs| :: fs[i].0
    decreases |fs|
  {
    if fs != [] {
      var init := fs[..|fs| - 1];
      SetFlagsKeys(init);
      assert forall i :: 0 <= i < |init| ==> init[i] == fs[i];
      assert (set i | 0 <= i < |fs| :: fs[i].0) == (set i | 0 <= i < |init| :: init[i].0) + {fs[|fs| - 1].0};
    }
  }

  /** A flag takes the truth value of its last listed value. */
  lemma {:induction false} SetFlagsLastWins(fs: seq<(string, Json)>, i: int)
    requires 0 <= i < |fs|
    requires forall j :: i < j < |fs| ==> fs[j].0 != fs[i].0
    ensures fs[i].0 in SetFlags(map[], fs)
    ensures SetFlags(map[], fs)[fs[i].0] == Truthy(fs[i].1)
    decreases |fs|
  {
    if i < |fs| - 1 {
      var init := fs[..|fs| - 1];
      assert init[i] == fs[i];
      SetFlagsLastWins(init, i);
    }
  }

  /** `build_env`: fills a fresh environment from the description, in the
      description's order. */
  method BuildEnv(init: InitialState) returns (env: Env)
    ensures fresh(env)
    ensures env.State() == InitialEnv(init)
    ensures env.Valid()
  {
    env := new Env();
    var ds := init.deployments;
    for i := 0 to |ds|
      invariant env.State() == PlaceAll(EmptyEnv, ds[..i])
    {
      assert ds[..i + 1][..i] == ds[..i];
      var key := (ds[i].service, ds[i].namespace);
      if key !in env.deployments {
        env.order := env.order + [key];
      }
      env.deployments := env.deployments[key := DeploymentOf(ds[i])];
    }
    assert ds[..|ds|] == ds;
    PlaceAllFrame(EmptyEnv, ds);
    var fs := init.featureFlags;
    for i := 0 to |fs|
      invariant env.State() == PlaceAll(EmptyEnv, ds).(featureFlags := SetFlags(map[], fs[..i]))
    {
      assert fs[..i + 1][..i] == fs[..i];
      env.featureFlags := env.featureFlags[fs[i].0 := Truthy(fs[i].1)];
    }
    assert fs[..|fs|] == fs;
    if init.ticket.Some? {
      var t := init.ticket.value;
      env.ticket := env.ticket.(status := if t.status.Some? then t.status.value else env.ticket.status);
      env.ticket := env.ticket.(note := if t.note.Some? then t.note.value else env.ticket.note);
    }
    PlaceAllFrame(EmptyEnv, ds);
    PlaceAllWellFormed(EmptyEnv, ds);
  }

  // ---------------------------------------------------------------------
  // exec_tool

  /** The JSON type a parameter is annotated with. */
  datatype ParamKind = StringParam | IntParam | BoolParam

  function KindOf(t: Tool, p: string): ParamKind {
    if (t == K8sScaleTool && p == "replicas") || (t == MetricsQueryTool && p == "minutes") then IntParam
    else if t == FeatureFlagSetTool && p == "enabled" then BoolParam
    else StringParam
  }

  predicate HasKind(j: Json, k: ParamKind) {
    match k
    case StringParam => j.JStr?
    case IntParam => j.JNum?
    case BoolParam => j.JBool?
  }

  /** Every supplied parameter has the type the tool is annotated with. */
  predicate WellTyped(t: Tool, args: map<string, Json>) {
    forall p :: p in args && p in Params(t) ==> HasKind(args[p], KindOf(t, p))
  }

  /** A tool function applied to arguments of the right names and types. */
  datatype Invocation =
    | MetricsQueryCall(service: string, metric: string, minutes: int, namespace: string)
    | K8sScaleCall(service: string, replicas: int, namespace: string)
    | K8sRestartCall(service: string, namespace: string)
    | FeatureFlagSetCall(flag: string, enabled: bool)
    | IncidentLogCall(message: string, severity: string)
    | TicketUpdateCall(status: string, note: string)

  function ToolOf(inv: Invocation): Tool {
    match inv
    case MetricsQueryCall(_, _, _, _) => MetricsQueryTool
    case K8sScaleCall(_, _, _) => K8sScaleTool
    case K8sRestartCall(_, _) => K8sRestartTool
    case FeatureFlagSetCall(_, _) => FeatureFlagSetTool
    case IncidentLogCall(_, _) => IncidentLogTool
    case TicketUpdateCall(_, _) => TicketUpdateTool
  }

  /** The keyword arguments that make up an invocation. */
  function ArgsOf(inv: Invocation): map<string, Json> {
    match inv
    case MetricsQueryCall(svc, m, n, ns) =>
      map["service" := JStr(svc), "metric" := JStr(m), "minutes" := JNum(n), "namespace" := JStr(ns)]
    case K8sScaleCall(svc, n, ns) => map["service" := JStr(svc), "replicas" := JNum(n), "namespace" := JStr(ns)]
    case K8sRestartCall(svc, ns) => map["service" := JStr(svc), "namespace" := JStr(ns)]
    case FeatureFlagSetCall(f, b) => map["flag" := JStr(f), "enabled" := JBool(b)]
    case IncidentLogCall(msg, sev) => map["message" := JStr(msg), "severity" := JStr(sev)]
    case TicketUpdateCall(st, note) => map["status" := JStr(st), "note" := JStr(note)]
  }

  /** The outcome of binding keyword arguments to a tool's parameters. */
  datatype Binding = Bound(inv: Invocation) | Unbound(problem: BindProblem)

  function Build(t: Tool, args: map<string, Json>): (inv: Invocation)
    requires args.Keys == Params(t) && WellTyped(t, args)
    ensures ToolOf(inv) == t
  {
    match t
    case MetricsQueryTool =>
      assert HasKind(args["service"], StringParam) && HasKind(args["metric"], StringParam);
      assert HasKind(args["minutes"], IntParam) && HasKind(args["namespace"], StringParam);
      MetricsQueryCall(args["service"].s, args["metric"].s, args["minutes"].n, args["namespace"].s)
    case K8sScaleTool =>
      assert HasKind(args["service"], StringParam) && HasKind(args["replicas"], IntParam);
      assert HasKind(args["namespace"], StringParam);
      K8sScaleCall(args["service"].s, args["replicas"].n, args["namespace"].s)
    case K8sRestartTool =>
      assert HasKind(args["service"], StringParam) && HasKind(args["namespace"], StringParam);
      K8sRestartCall(args["service"].s, args["namespace"].s)
    case FeatureFlagSetTool =>
      assert HasKind(args["flag"], StringParam) && HasKind(args["enabled"], BoolParam);
      FeatureFlagSetCall(args["flag"].s, args["enabled"].b)
    case IncidentLogTool =>
      assert HasKind(args["message"], StringParam) && HasKind(args["severity"], StringParam);
      IncidentLogCall(args["message"].s, args["severity"].s)
    case TicketUpdateTool =>
      assert HasKind(args["status"], StringParam) && HasKind(args["note"], StringParam);
      TicketUpdateCall(args["status"].s, args["note"].s)
  }

  /** `fn(env=env, **call.arguments)` up to the call itself: an unexpected
      keyword is reported first, then a missing parameter, then a value of
      the wrong type; otherwise the arguments bind, and they are exactly
      the invocation's. */
  function Bind(t: Tool, args: map<string, Json>): (b: Binding)
    ensures b == Unbound(UnexpectedArgument) <==> exists k :: k in args && k !in Params(t)
    ensures b == Unbound(MissingArgument) <==> args.Keys <= Params(t) && !(Params(t) <= args.Keys)
    ensures b.Bound? <==> args.Keys == Params(t) && WellTyped(t, args)
    ensures b.Bound? ==> ToolOf(b.inv) == t && ArgsOf(b.inv) == args
  {
    if exists k | k in args :: k !in Params(t) then Unbound(UnexpectedArgument)
    else if exists p | p in Params(t) :: p !in args then Unbound(MissingArgument)
    else if !WellTyped(t, args) then Unbound(WrongType)
    else BuildArgsOf(t, args); Bound(Build(t, args))
  }

  /** Building an invocation keeps every argument: `ArgsOf` gives back the
      arguments it was built from. */
  lemma BuildArgsOf(t: Tool, args: map<string, Json>)
    requires args.Keys == Params(t) && WellTyped(t, args)
    ensures ArgsOf(Build(t, args)) == args
  {
    var a := ArgsOf(Build(t, args));
    assert a.Keys == args.Keys;
    forall p | p in args ensures a[p] == args[p] {
      assert HasKind(args[p], KindOf(t, p));
    }
  }

  /** Binding is the inverse of `ArgsOf`: an invocation's own arguments
      bind back to that invocation. */
  lemma BindArgsOf(inv: Invocation)
    ensures Bind(ToolOf(inv), ArgsOf(inv)) == Bound(inv)
  {
    var t := ToolOf(inv);
    var args := ArgsOf(inv);
    assert args.Keys == Params(t);
    assert WellTyped(t, args);
  }

  /** Running the bound tool function. */
  function Apply(s: EnvState, inv: Invocation, now: Timestamp): Effect {
    match inv
    case MetricsQueryCall(svc, m, n, ns) => Effect(s, MetricsQueryResult(s, svc, m, n, ns))
    case K8sScaleCall(svc, n, ns) => K8sScaleEffect(s, svc, n, ns)
    case K8sRestartCall(svc, ns) => K8sRestartEffect(s, svc, ns, now)
    case FeatureFlagSetCall(f, b) => FeatureFlagSetEffect(s, f, b)
    case IncidentLogCall(msg, sev) => IncidentLogEffect(s, msg, sev, now)
    case TicketUpdateCall(st, note) => TicketUpdateEffect(s, st, note)
  }

  /** `exec_tool` as a function of the environment's value. An unknown
      name and an argument-binding failure both become failed results that
      leave the environment unchanged; the binding failure is the only
      source of `ArgumentError`. Whatever happens, the new environment is
      the change the result reports, no deployment appears or disappears,
      and well-formedness is kept. */
  function Dispatch(s: EnvState, call: ToolCall, now: Timestamp): (e: Effect)
    ensures Lookup(call.name).None? ==> e == Effect(s, Failure(UnknownTool(call.name)))
    ensures e.result.Failure? && e.result.error.ArgumentError? <==>
              Lookup(call.name).Some? && Bind(Lookup(call.name).value, call.arguments).Unbound?
    ensures e.result.Failure? && e.result.error.ArgumentError? ==>
              e.result.error == ArgumentError(call.name, Bind(Lookup(call.name).value, call.arguments).problem)
    ensures e.result.Failure? ==> e.env == s
    ensures e.env == AsReported(s, e.result)
  {
    match Lookup(call.name)
    case None => Effect(s, Failure(UnknownTool(call.name)))
    case Some(t) =>
      match Bind(t, call.arguments)
      case Unbound(p) => Effect(s, Failure(ArgumentError(call.name, p)))
      case Bound(inv) => Apply(s, inv, now)
  }

  /** No call makes a deployment appear or disappear, and every call keeps
      the environment well formed. */
  lemma DispatchKeepsShape(s: EnvState, call: ToolCall, now: Timestamp)
    ensures Dispatch(s, call, now).env.deployments.Keys == s.deployments.Keys
    ensures Dispatch(s, call, now).env.order == s.order
    ensures WellFormed(s) ==> WellFormed(Dispatch(s, call, now).env)
  {
    match Lookup(call.name)
    case None =>
    case Some(t) =>
      match Bind(t, call.arguments)
      case Unbound(_) =>
      case Bound(inv) => ApplyKeepsShape(s, inv, now);
  }

  lemma ApplyKeepsShape(s: EnvState, inv: Invocation, now: Timestamp)
    ensures Apply(s, inv, now).env.deployments.Keys == s.deployments.Keys
    ensures Apply(s, inv, now).env.order == s.order
    ensures WellFormed(s) ==> WellFormed(Apply(s, inv, now).env)
  {
    match inv
    case MetricsQueryCall(_, _, _, _) =>
    case K8sScaleCall(svc, n, ns) =>
      var e := K8sScaleEffect(s, svc, n, ns);
      if e.result.ok() {
        assert e.env.deployments.Keys == s.deployments.Keys;
      }
    case K8sRestartCall(_, _) =>
    case FeatureFlagSetCall(_, _) =>
    case IncidentLogCall(_, _) =>
    case TicketUpdateCall(_, _) =>
  }

  /** `exec_tool` on the mutable environment. */
  method ExecTool(env: Env, call: ToolCall, now: Timestamp) returns (r: ToolResult)
    modifies env
    ensures env.State() == Dispatch(old(env.State()), call, now).env
    ensures r == Dispatch(old(env.State()), call, now).result
    ensures old(env.Valid()) ==> env.Valid()
  {
    DispatchKeepsShape(env.State(), call, now);
    var fn := Lookup(call.name);
    if fn.None? {
      return Failure(UnknownTool(call.name));
    }
    var b := Bind(fn.value, call.arguments);
    if b.Unbound? {
      return Failure(ArgumentError(call.name, b.problem));
    }
    match b.inv
    case MetricsQueryCall(svc, m, n, ns) => r := env.MetricsQuery(svc, m, n, ns);
    case K8sScaleCall(svc, n, ns) => r := env.K8sScale(svc, n, ns);
    case K8sRestartCall(svc, ns) => r := env.K8sRestart(svc, ns, now);
    case FeatureFlagSetCall(f, en) => r := env.FeatureFlagSet(f, en);
    case IncidentLogCall(msg, sev) => r := env.IncidentLog(msg, sev, now);
    case TicketUpdateCall(st, note) => r := env.TicketUpdate(st, note);
  }

  // ---------------------------------------------------------------------
  // Traces

  /** Replays a trace from `s0`: each entry's call is dispatched at the
      clock reading of its step and must give the recorded result. `None`
      when some recorded result disagrees. */
  function Replay(s0: EnvState, entries: seq<TraceEntry>, clock: nat -> Timestamp): Option<EnvState>
    decreases |entries|
  {
    if entries == [] then Some(s0)
    else
      match Replay(s0, entries[..|entries| - 1], clock)
      case None => None
      case Some(s) =>
        var last := entries[|entries| - 1];
        var e := Dispatch(s, last.call, clock(last.step));
        if e.result == last.result then Some(e.env) else None
  }

  /** Replaying one more entry dispatches its call in the state the
      earlier entries replay to. */
  lemma ReplayAppend(s0: EnvState, entries: seq<TraceEntry>, entry: TraceEntry, clock: nat -> Timestamp, s: EnvState)
    requires Replay(s0, entries, clock) == Some(s)
    ensures var e := Dispatch(s, entry.call, clock(entry.step));
            Replay(s0, entries + [entry], clock) == if e.result == entry.result then Some(e.env) else None
  {
    assert (entries + [entry])[..|entries|] == entries;
  }

  /** The state the results of a trace report, read without re-running any
      tool. */
  function Reported(s0: EnvState, entries: seq<TraceEntry>): EnvState
    decreases |entries|
  {
    if entries == [] then s0
    else AsReported(Reported(s0, entries[..|entries| - 1]), entries[|entries| - 1].result)
  }

  /** The entries appended to the incident log by a trace's successful
      `incident_log` calls. */
  function Logged(entries: seq<TraceEntry>): seq<LogEntry>
    decreases |entries|
  {
    if entries == [] then []
    else
      var r := entries[|entries| - 1].result;
      Logged(entries[..|entries| - 1]) + (if r.Success? && r.data.LogData? then [r.data.entry] else [])
  }

  /** A trace that replays leaves the environment in the state its results
      report: the environment changes only through the traced calls, and
      the results alone determine how. */
  lemma {:induction false} ReplayIsReported(s0: EnvState, entries: seq<TraceEntry>, clock: nat -> Timestamp)
    ensures Replay(s0, entries, clock).Some? ==> Replay(s0, entries, clock).value == Reported(s0, entries)
    decreases |entries|
  {
    if entries != [] {
      ReplayIsReported(s0, entries[..|entries| - 1], clock);
    }
  }

  /** Replaying keeps the environment well formed, and keeps its set of
      deployments and their order. */
  lemma {:induction false} ReplayWellFormed(s0: EnvState, entries: seq<TraceEntry>, clock: nat -> Timestamp)
    requires WellFormed(s0)
    ensures Replay(s0, entries, clock).Some? ==>
              && WellFormed(Replay(s0, entries, clock).value)
              && Replay(s0, entries, clock).value.deployments.Keys == s0.deployments.Keys
              && Replay(s0, entries, clock).value.order == s0.order
    decreases |entries|
  {
    if entries != [] {
      ReplayWellFormed(s0, entries[..|entries| - 1], clock);
      var prev := Replay(s0, entries[..|entries| - 1], clock);
      if prev.Some? {
        DispatchKeepsShape(prev.value, entries[|entries| - 1].call, clock(entries[|entries| - 1].step));
      }
    }
  }

  /** The incident log is append-only: the state a trace reports has the
      old log followed by exactly the entries the successful
      `incident_log` calls returned. */
  lemma {:induction false} ReportedLog(s0: EnvState, entries: seq<TraceEntry>)
    ensures Reported(s0, entries).incidentLog == s0.incidentLog + Logged(entries)
    decreases |entries|
  {
    if entries != [] {
      ReportedLog(s0, entries[..|entries| - 1]);
    }
  }

  /** The same for a trace that replays. */
  lemma ReplayLog(s0: EnvState, entries: seq<TraceEntry>, clock: nat -> Timestamp)
    ensures Replay(s0, entries, clock).Some? ==>
              Replay(s0, entries, clock).value.incidentLog == s0.incidentLog + Logged(entries)
  {
    ReplayIsReported(s0, entries, clock);
    ReportedLog(s0, entries);
  }

  /** No successful `k8s_scale` result names deployment `k`. */
  predicate NeverScaled(entries: seq<TraceEntry>, k: Key) {
    forall i :: 0 <= i < |entries| ==>
                  !(entries[i].result.Success? && entries[i].result.data.ScaleData?
                    && (entries[i].result.data.service, entries[i].result.data.namespace) == k)
  }

  /** A deployment's replica count changes only through a successful
      `k8s_scale` result naming it. */
  lemma {:induction false} ReportedReplicas(s0: EnvState, entries: seq<TraceEntry>, k: Key)
    requires k in s0.deployments
    requires NeverScaled(entries, k)
    ensures k in Reported(s0, entries).deployments
    ensures Reported(s0, entries).deployments[k].replicas == s0.deployments[k].replicas
    decreases |entries|
  {
    if entries != [] {
      var init := entries[..|entries| - 1];
      assert forall i :: 0 <= i < |init| ==> init[i] == entries[i];
      ReportedReplicas(s0, init, k);
    }
  }

  /** The same for a trace that replays. */
  lemma ReplayReplicas(s0: EnvState, entries: seq<TraceEntry>, clock: nat -> Timestamp, k: Key)
    requires k in s0.deployments
    requires NeverScaled(entries, k)
    ensures Replay(s0, entries, clock).Some? ==>
              && k in Replay(s0, entries, clock).value.deployments
              && Replay(s0, entries, clock).value.deployments[k].replicas == s0.deployments[k].replicas
  {
    ReplayIsReported(s0, entries, clock);
    ReportedReplicas(s0, entries, k);
  }

  // ---------------------------------------------------------------------
  // The final snapshot

  /** The snapshot key `f"{svc}:{ns}"`. */
  function Label(k: Key): string { k.0 + ":" + k.1 }

  /** `{f"{svc}:{ns}": dep.replicas for (svc, ns), dep in items()}`, in
      insertion order, so a later key overwrites an earlier one with the
      same label. */
  function ReplicaTable(order: seq<Key>, deps: map<Key, Deployment>): map<string, int>
    decreases |order|
  {
    if order == [] then map[]
    else
      var k := order[|order| - 1];
      var t := ReplicaTable(order[..|order| - 1], deps);
      if k in deps then t[Label(k) := deps[k].replicas] else t
  }

  /** The snapshot's keys are the labels of the deployments. */
  lemma {:induction false} ReplicaTableKeys(order: seq<Key>, deps: map<Key, Deployment>)
    ensures ReplicaTable(order, deps).Keys == set i | 0 <= i < |order| && order[i] in deps :: Label(order[i])
    decreases |order|
  {
    if order != [] {
      var init := order[..|order| - 1];
      ReplicaTableKeys(init, deps);
      assert forall i :: 0 <= i < |init| ==> init[i] == order[i];
      var last := order[|order| - 1];
      assert (set i | 0 <= i < |order| && order[i] in deps :: Label(order[i]))
             == (set i | 0 <= i < |init| && init[i] in deps :: Label(init[i]))
                + (if last in deps then {Label(last)} else {});
    }
  }

  /** A deployment whose label no other deployment shares appears in the
      snapshot with its replica count. */
  lemma {:induction false} ReplicaTableValue(order: seq<Key>, deps: map<Key, Deployment>, k: Key)
    requires k in deps
    requires exists i :: 0 <= i < |order| && order[i] == k
    requires forall j :: 0 <= j < |order| && Label(order[j]) == Label(k) ==> order[j] == k
    ensures Label(k) in ReplicaTable(order, deps)
    ensures ReplicaTable(order, deps)[Label(k)] == deps[k].replicas
    decreases |order|
  {
    var init := order[..|order| - 1];
    var last := order[|order| - 1];
    assert forall j :: 0 <= j < |init| ==> init[j] == order[j];
    if last != k {
      assert Label(last) != Label(k);
      ReplicaTableValue(init, deps, k);
    }
  }

  /** Two deployments whose names contain a colon can share a label, and
      the snapshot then shows only the later one. */
  lemma LabelsCanCollide()
    ensures var a: Key := ("a:b", "c");
            var b: Key := ("a", "b:c");
            var deps := map[a := Deployment("a:b", "c", 2, None), b := Deployment("a", "b:c", 5, None)];
            a != b && Label(a) == Label(b) && ReplicaTable([a, b], deps) == map[Label(a) := 5]
  {
    var a: Key := ("a:b", "c");
    var b: Key := ("a", "b:c");
    var deps := map[a := Deployment("a:b", "c", 2, None), b := Deployment("a", "b:c", 5, None)];
    assert Label(a) == "a:b:c" && Label(b) == "a:b:c";
    assert [a, b][..1] == [a];
    assert [a][..0] == [];
    assert ReplicaTable([a], deps) == map[Label(a) := 2];
    assert ReplicaTable([a, b], deps) == map[Label(a) := 2][Label(b) := 5];
  }

  /** The `final` mapping of a run. */
  function FinalOf(s: EnvState): FinalSnapshot {
    FinalSnapshot(ReplicaTable(s.order, s.deployments), s.ticket, s.featureFlags, s.incidentLog)
  }

  /** Builds the `final` mapping by iterating over the deployments in
      insertion order. */
  method Snapshot(env: Env) returns (f: FinalSnapshot)
    ensures f == FinalOf(env.State())
  {
    var table: map<string, int> := map[];
    var order := env.order;
    for i := 0 to |order|
      invariant table == ReplicaTable(order[..i], env.deployments)
    {
      assert order[..i + 1][..i] == order[..i];
      var k := order[i];
      if k in env.deployments {
        table := table[Label(k) := env.deployments[k].replicas];
      }
    }
    assert order[..|order|] == order;
    f := FinalSnapshot(table, env.ticket, env.featureFlags, env.incidentLog);
  }

  // ---------------------------------------------------------------------
  // run_sequence

  const DefaultMaxSteps: int := 8

  /** One step of `run_sequence`: executes the call with the clock reading
      of its step and appends the entry, so the trace still replays to the
      environment's state. */
  method RecordCall(env: Env, trace: seq<TraceEntry>, call: ToolCall, step: nat, clock: nat -> Timestamp,
                    ghost s0: EnvState)
    returns (trace': seq<TraceEntry>)
    modifies env
    requires Replay(s0, trace, clock) == Some(env.State())
    ensures |trace'| == |trace| + 1 && trace'[..|trace|] == trace
    ensures trace'[|trace|].step == step && trace'[|trace|].call == call
    ensures Replay(s0, trace', clock) == Some(env.State())
  {
    ghost var before := env.State();
    var result := ExecTool(env, call, clock(step));
    var entry := TraceEntry(step, call, result);
    ReplayAppend(s0, trace, entry, clock, before);
    trace' := trace + [entry];
    assert trace'[..|trace|] == trace;
  }

  /** `Harness.run_sequence`: executes the calls in order until the step
      budget is used up. The trace holds one entry per executed call,
      numbered from 1, and replays to the environment's new state; the
      snapshot is taken of that state. `clock(i)` is the wall-clock reading
      during step `i`. */
  method RunSequence(env: Env, sequence: seq<ToolCall>, maxSteps: int, clock: nat -> Timestamp)
    returns (t: ExecutionTrace)
    modifies env
    ensures |t.toolCalls| == (if maxSteps <= 0 then 0 else Min(|sequence|, maxSteps))
    ensures forall i :: 0 <= i < |t.toolCalls| ==>
                          t.toolCalls[i].step == i + 1 && t.toolCalls[i].call == sequence[i]
    ensures Replay(old(env.State()), t.toolCalls, clock) == Some(env.State())
    ensures t.final == FinalOf(env.State())
  {
    var trace: seq<TraceEntry> := [];
    var i := 0;
    while i < |sequence|
      invariant 0 <= i <= |sequence|
      invariant i <= maxSteps || i == 0
      invariant |trace| == i
      invariant forall j :: 0 <= j < i ==> trace[j].step == j + 1 && trace[j].call == sequence[j]
      invariant Replay(old(env.State()), trace, clock) == Some(env.State())
    {
      if i >= maxSteps {
        break;
      }
      ghost var prev := trace;
      trace := RecordCall(env, trace, sequence[i], i + 1, clock, old(env.State()));
      forall j | 0 <= j < i + 1 ensures trace[j].step == j + 1 && trace[j].call == sequence[j] {
        if j < i {
          assert trace[j] == trace[..i][j] == prev[j];
        }
      }
      i := i + 1;
    }
    var final := Snapshot(env);
    t := ExecutionTrace(trace, final);
  }
}
