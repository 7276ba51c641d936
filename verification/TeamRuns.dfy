/** A workflow whose runtimes are agent runtimes: what the layers keep together. */
module TeamRuns {
  import opened Options
  import opened AgentResults
  import opened OrchestratorData
  import opened Permissions
  import opened AgentRuntimes
  import Log = AgentLog
  import Sessions = AgentSessions
  import Machine = OrchestratorMachine
  import Flow = AgentOrchestrators

  /** What one agent run did: its surroundings, its session's answer, its log, and the tools it exposed. */
  datatype Trace = Trace(env: Log.Env, said: Option<Sessions.PromptResult>, log: seq<Log.Event>, registry: Log.Registry)

  /** The agents behind the runtimes a factory makes, and the run behind every runtime call. */
  datatype Team = Team(setup: string -> Setup, profile: string -> Profile, task: Flow.Context -> Task,
                       trace: (seq<Machine.Event>, Flow.Context) -> Trace)

  /** The trace is a run of an agent runtime on this context, with this result. */
  ghost predicate IsRun(team: Team, context: Flow.Context, result: AgentResult, t: Trace) {
    var id := context.profileId;
    RunKept(team.setup(id), team.profile(id), team.task(context), t.env, t.said, result, t.log, t.registry)
  }

  ghost predicate CallIsRun(world: Flow.World, team: Team, log: seq<Machine.Event>, context: Flow.Context) {
    var result := world.run(log, context);
    result.Some? && IsRun(team, context, result.value, team.trace(log, context))
  }

  /** Every runtime call of this world is a run of an agent runtime; none throws. */
  ghost predicate MadeOfRuntimes(world: Flow.World, team: Team) {
    forall log, context :: CallIsRun(world, team, log, context)
  }

  /** The run behind a record; none when the start callback of its stage threw. */
  ghost predicate Behind(world: Flow.World, team: Team, log: seq<Machine.Event>, from: nat, stage: nat,
                         context: Flow.Context, result: AgentResult, t: Option<Trace>)
  {
    match t
    case None => result == Flow.FAILED_RUN && Flow.StartThrew(world, log, from, stage)
    case Some(trace) =>
      && IsRun(team, context, result, trace)
      && exists j :: from <= j <= |log| && Machine.LastOfWorker(log[..j]) == Some(Machine.Began(stage))
                     && trace == team.trace(log[..j], context)
  }

  lemma RunBehind(world: Flow.World, team: Team, log: seq<Machine.Event>, from: nat, stage: nat,
                  context: Flow.Context, result: AgentResult) returns (t: Option<Trace>)
    requires MadeOfRuntimes(world, team) && Flow.Returned(world, log, from, stage, context, result)
    ensures Behind(world, team, log, from, stage, context, result, t)
  {
    hide RunKept, Machine.LastOfWorker;
    if Flow.RunGave(world, log, from, stage, context, Flow.FAILED_RUN, result) {
      var j :| from <= j <= |log| && Machine.LastOfWorker(log[..j]) == Some(Machine.Began(stage))
        && (world.run(log[..j], context) == Some(result)
            || (world.run(log[..j], context).None? && result == Flow.FAILED_RUN));
      assert CallIsRun(world, team, log[..j], context);
      t := Some(team.trace(log[..j], context));
    } else {
      t := None;
    }
  }

  /** One run behind every record of a workflow. */
  ghost predicate AllBehind(world: Flow.World, team: Team, log: seq<Machine.Event>, from: nat,
                            executions: seq<Flow.Execution>, contexts: seq<Flow.Context>, traces: seq<Option<Trace>>)
  {
    && |traces| == |executions| <= |contexts|
    && forall k :: 0 <= k < |traces| ==>
         Behind(world, team, log, from, k, contexts[k], executions[k].result, traces[k])
  }

  lemma RunsBehind(world: Flow.World, team: Team, log: seq<Machine.Event>, from: nat,
                   executions: seq<Flow.Execution>, contexts: seq<Flow.Context>) returns (traces: seq<Option<Trace>>)
    requires MadeOfRuntimes(world, team) && Flow.AllReturned(world, log, from, executions, contexts)
    ensures AllBehind(world, team, log, from, executions, contexts, traces)
  {
    hide MadeOfRuntimes, Flow.Returned, Behind;
    traces := [];
    for k := 0 to |executions|
      invariant |traces| == k
      invariant forall m :: 0 <= m < k ==>
                  Behind(world, team, log, from, m, contexts[m], executions[m].result, traces[m])
    {
      var t := RunBehind(world, team, log, from, k, contexts[k], executions[k].result);
      traces := traces + [t];
    }
  }

  function CallsOf(t: Option<Trace>): nat {
    if t.Some? then Log.Calls(t.value.log) else 0
  }

  /** The model calls of all runs. */
  function TotalCalls(traces: seq<Option<Trace>>): nat {
    if traces == [] then 0
    else TotalCalls(traces[..|traces| - 1]) + CallsOf(traces[|traces| - 1])
  }

  /** A limit of a stage: the step limit of its profile, or the one of its task. */
  ghost predicate IsLimit(team: Team, context: Flow.Context, limit: nat) {
    || limit == team.profile(context.profileId).maxSteps
    || team.task(context).constraints.maxSteps == Some(limit)
  }

  function Sum(limits: seq<nat>): nat {
    if limits == [] then 0 else Sum(limits[..|limits| - 1]) + limits[|limits| - 1]
  }

  lemma CallsWithinLimit(world: Flow.World, team: Team, log: seq<Machine.Event>, from: nat, stage: nat,
                         context: Flow.Context, result: AgentResult, t: Option<Trace>, limit: nat)
    requires Behind(world, team, log, from, stage, context, result, t) && IsLimit(team, context, limit)
    ensures CallsOf(t) <= limit
  {
  }

  /**
   * All model calls of a workflow together stay within the sum of its stages' limits, whichever of
   * the two limits, that of the profile or that of the task, is taken for each stage.
   */
  lemma {:induction false} WorkflowKeepsBudgets(world: Flow.World, team: Team, log: seq<Machine.Event>, from: nat,
                                                executions: seq<Flow.Execution>, contexts: seq<Flow.Context>,
                                                traces: seq<Option<Trace>>, limits: seq<nat>)
    requires AllBehind(world, team, log, from, executions, contexts, traces) && |limits| <= |traces|
    requires forall k :: 0 <= k < |limits| ==> IsLimit(team, contexts[k], limits[k])
    ensures TotalCalls(traces[..|limits|]) <= Sum(limits)
    decreases |limits|
  {
    if limits == [] {
    } else {
      hide Behind, CallsOf, IsLimit;
      var n := |limits| - 1;
      assert traces[..n + 1][..n] == traces[..n];
      WorkflowKeepsBudgets(world, team, log, from, executions, contexts, traces, limits[..n]);
      CallsWithinLimit(world, team, log, from, n, contexts[n], executions[n].result, traces[n], limits[n]);
    }
  }

  /** Every tool effect of a workflow is permitted by the profile of its own stage. */
  lemma WorkflowKeepsPermissions(world: Flow.World, team: Team, log: seq<Machine.Event>, from: nat,
                                 executions: seq<Flow.Execution>, contexts: seq<Flow.Context>,
                                 traces: seq<Option<Trace>>, k: nat, at: nat)
    requires AllBehind(world, team, log, from, executions, contexts, traces) && k < |traces|
    requires traces[k].Some? && at < |traces[k].value.log| && traces[k].value.log[at].ToolEffect?
    ensures var id, t := contexts[k].profileId, traces[k].value;
            Permitted(t.env, team.profile(id), team.task(contexts[k]).constraints.readOnly, team.setup(id).tools,
                      t.log, at)
  {
    hide Permitted, RegistryOf, ValidBindings, Log.Sound, Reports, ExposesNothing, Equipped;
    var id, t := contexts[k].profileId, traces[k].value;
    assert Behind(world, team, log, from, k, contexts[k], executions[k].result, traces[k]);
    assert RunKept(team.setup(id), team.profile(id), team.task(contexts[k]), t.env, t.said, executions[k].result, t.log,
                   t.registry);
    EffectsArePermitted(t.env, team.profile(id), team.task(contexts[k]).constraints.readOnly, team.setup(id).tools,
                        t.registry, t.log, at);
  }

  /** In a completed workflow nobody declined anything, and no confirmation lacked a handler. */
  lemma CompletedWorkflowWasApproved(world: Flow.World, team: Team, task: Flow.OrchestrationTask,
                                     log: seq<Machine.Event>, from: nat, flow: Flow.Workflow,
                                     contexts: seq<Flow.Context>, traces: seq<Option<Trace>>, k: nat)
    requires Flow.AtStage(task, flow.executions, flow.artifacts, contexts, 4)
    requires AllBehind(world, team, log, from, flow.executions, contexts, traces) && k < 4
    ensures |traces| == 4 && traces[k].Some?
    ensures var t := traces[k].value; !HandlerMissed(t.log) && !UserDeclined(t.log) && EndsWith(t.log, false)
  {
    hide Flow.Orderly, Produced, HandlerMissed, UserDeclined, Log.Sound, RegistryOf, Log.Calls;
    assert Behind(world, team, log, from, k, contexts[k], flow.executions[k].result, traces[k]);
    assert flow.executions[k].result.status == Completed;
  }
}
