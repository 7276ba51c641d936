/** The orchestrator itself: the stage loop, with its data, as a run of the interleaving machine. */
module AgentOrchestrators {
  import opened Options
  import opened AgentResults
  import opened OrchestratorData
  import opened OrchestratorMachine

  datatype OrchestrationTask = OrchestrationTask(id: string, objective: string, workingDirectory: string,
                                                 initial: seq<Artifact>, maxSteps: Option<nat>, maxAgentRuns: nat)

  /** What a runtime is given besides its profile. */
  datatype Context = Context(profileId: string, inputs: seq<Artifact>, artifacts: seq<Artifact>)

  datatype Execution = Execution(profileId: string, result: AgentResult)

  datatype FlowError = FlowError(code: string, message: string, profileId: string)

  datatype Workflow = Workflow(status: Status, summary: string, executions: seq<Execution>,
                               artifacts: seq<Artifact>, error: Option<FlowError>)

  datatype Made = Built | NoRuntime | FactoryThrew

  /** The outside world, reacting to everything logged so far; None stands for an exception. */
  datatype World = World(interrupts: seq<Event> -> bool,
                         factory: Option<(seq<Event>, string) -> Made>,
                         startThrows: seq<Event> -> bool,
                         run: (seq<Event>, Context) -> Option<AgentResult>,
                         finishThrows: seq<Event> -> bool,
                         between: Option<(seq<Event>, AgentResult, Artifact) -> Option<Decision>>)

  predicate ValidWorkflow(task: OrchestrationTask) {
    && HasText(task.id) && HasText(task.objective) && task.workingDirectory != "" && task.maxAgentRuns > 0
    && (task.maxSteps.Some? ==> task.maxSteps.value > 0)
  }

  /** The task is named and described, with positive budgets. */
  ghost predicate Described(task: OrchestrationTask) {
    && Visible(task.id) && Visible(task.objective) && task.workingDirectory != "" && task.maxAgentRuns > 0
    && (task.maxSteps.Some? ==> task.maxSteps.value > 0)
  }

  lemma DescribedExactly(task: OrchestrationTask)
    ensures ValidWorkflow(task) <==> Described(task)
  {
    hide HasText, Visible;
    HasTextExactly(task.id);
    HasTextExactly(task.objective);
  }

  function PreflightFailure(code: string, message: string): Workflow {
    Workflow(FailedFlow, message, [], [], Some(FlowError(code, message, "")))
  }

  function Results(executions: seq<Execution>): seq<AgentResult> {
    seq(|executions|, i requires 0 <= i < |executions| => executions[i].result)
  }

  function UserRequestOf(task: OrchestrationTask): Artifact {
    Artifact(UserRequest, "user", task.objective)
  }

  const FAILED_RUN := FailedWith("orchestration_exception", "Agent runtime or orchestration callback failed.")

  const FAILED_AGENT := FailedWith("execution_exception", "Agent runtime execution failed.")

  const CANCELLED_AGENT := AgentResult(Cancelled, "Execution cancelled.", [], None)

  /** A cancelled run keeps its artifacts and its summary, if it has one. */
  function AsCancelled(r: AgentResult): AgentResult {
    AgentResult(Cancelled, if r.summary == "" then "Execution cancelled." else r.summary, r.artifacts, None)
  }

  /** What a single execution returns: its run, unless that was cancelled or the flag is up. */
  function Overridden(ran: AgentResult, cancelled: bool): AgentResult {
    if cancelled || ran.status == Cancelled then AsCancelled(ran) else ran
  }

  lemma AsCancelledIs(r: AgentResult)
    ensures AsCancelled(r).status == Cancelled
  {
  }

  const NO_CHOICE := Choice(false, true, Completed, Proceed)

  /** What a stage is given. */
  function ContextAt(task: OrchestrationTask, earlier: seq<Execution>): Context
    requires |earlier| < 4
  {
    Context(STAGES[|earlier|].profileId, [UserRequestOf(task)],
            Scope(|earlier|, task.initial, Produced(Results(earlier))))
  }

  /** Records in stage order, all but the last completed; each context fixed by the records before it. */
  ghost predicate Orderly(task: OrchestrationTask, executions: seq<Execution>, artifacts: seq<Artifact>,
                          contexts: seq<Context>)
  {
    var n := |executions|;
    && n <= 4 && n <= |contexts| <= n + 1 && |contexts| <= 4
    && (forall k :: 0 <= k < n ==> executions[k].profileId == STAGES[k].profileId)
    && (forall k :: 0 <= k < n - 1 ==> executions[k].result.status == Completed)
    && (artifacts == Produced(Results(executions))
        || (n > 0 && artifacts == Produced(Results(executions[..n - 1]))))
    && forall k :: 0 <= k < |contexts| ==> contexts[k] == ContextAt(task, executions[..k])
  }

  /** At the head of stage n: n completed records, and all their artifacts. */
  ghost predicate AtStage(task: OrchestrationTask, executions: seq<Execution>, artifacts: seq<Artifact>,
                          contexts: seq<Context>, n: nat)
  {
    && Orderly(task, executions, artifacts, contexts) && |executions| == |contexts| == n
    && artifacts == Produced(Results(executions))
    && forall k :: 0 <= k < n ==> executions[k].result.status == Completed
  }

  /** The records stand for the explorer, the planner, the coder and the reviewer, in this order. */
  ghost predicate Named(executions: seq<Execution>) {
    && |executions| <= 4
    && (|executions| > 0 ==> executions[0].profileId == "explorer")
    && (|executions| > 1 ==> executions[1].profileId == "planner")
    && (|executions| > 2 ==> executions[2].profileId == "coder")
    && (|executions| > 3 ==> executions[3].profileId == "reviewer")
  }

  /** What each stage is handed: the request, and what the stages before it have said and tested. */
  ghost predicate HandsOn(task: OrchestrationTask, executions: seq<Execution>, contexts: seq<Context>)
    requires |executions| <= |contexts| <= |executions| + 1
  {
    var request := [Artifact(UserRequest, "user", task.objective)];
    && |contexts| <= 4
    && (|contexts| > 0 ==> contexts[0] == Context("explorer", request, task.initial))
    && (|contexts| > 1 ==>
          var first := executions[0].result;
          var report := Artifact(ExplorationReport, "explorer", first.summary);
          contexts[1] == Context("planner", request, task.initial + [report]))
    && (|contexts| > 2 ==>
          var first, second := executions[0].result, executions[1].result;
          var report := Artifact(ExplorationReport, "explorer", first.summary);
          var plan := Artifact(ImplementationPlan, "planner", second.summary);
          contexts[2] == Context("coder", request, [report, plan]))
    && (|contexts| > 3 ==>
          var first, second, third := executions[0].result, executions[1].result, executions[2].result;
          var plan := Artifact(ImplementationPlan, "planner", second.summary);
          var changes := Artifact(ChangeSummary, "coder", third.summary);
          contexts[3] == Context("reviewer", request,
                                 Tests(first.artifacts)
                                 + ([plan] + Tests(second.artifacts))
                                 + ([changes] + Tests(third.artifacts))
                                 + Tests(task.initial)))
  }

  /** All artifacts of a completed workflow, stage by stage. */
  ghost predicate AllHandedOn(executions: seq<Execution>, artifacts: seq<Artifact>)
    requires |executions| == 4
  {
    var first, second := executions[0].result, executions[1].result;
    var third, fourth := executions[2].result, executions[3].result;
    artifacts == ([Artifact(ExplorationReport, "explorer", first.summary)] + Tests(first.artifacts))
                 + ([Artifact(ImplementationPlan, "planner", second.summary)] + Tests(second.artifacts))
                 + ([Artifact(ChangeSummary, "coder", third.summary)] + Tests(third.artifacts))
                 + ([Artifact(ReviewReport, "reviewer", fourth.summary)] + Tests(fourth.artifacts))
  }

  lemma StageNames()
    ensures STAGES[0].profileId == "explorer" && STAGES[1].profileId == "planner"
    ensures STAGES[2].profileId == "coder" && STAGES[3].profileId == "reviewer"
  {
  }

  lemma FirstResults(executions: seq<Execution>, n: nat)
    requires n <= |executions|
    ensures |Results(executions[..n])| == n
    ensures forall k :: 0 <= k < n ==> Results(executions[..n])[k] == executions[k].result
  {
  }

  lemma OrderlyIsNamed(task: OrchestrationTask, executions: seq<Execution>, artifacts: seq<Artifact>,
                       contexts: seq<Context>)
    requires Orderly(task, executions, artifacts, contexts)
    ensures Named(executions)
  {
    hide Produced, Results, ContextAt;
    StageNames();
  }

  lemma OrderlyHandsOn(task: OrchestrationTask, executions: seq<Execution>, artifacts: seq<Artifact>,
                       contexts: seq<Context>)
    requires Orderly(task, executions, artifacts, contexts)
    ensures |executions| <= |contexts| <= |executions| + 1 && HandsOn(task, executions, contexts)
  {
    hide Produced, Scope, Tests, Results;
    StageNames();
    if |contexts| > 0 {
      FirstResults(executions, 0);
      assert Results(executions[..0]) == [];
      ExplorerScope(task.initial);
    }
    if |contexts| > 1 {
      FirstResults(executions, 1);
      PlannerScope(task.initial, Results(executions[..1]));
    }
    if |contexts| > 2 {
      FirstResults(executions, 2);
      CoderScope(task.initial, Results(executions[..2]));
    }
    if |contexts| > 3 {
      FirstResults(executions, 3);
      ReviewerScope(task.initial, Results(executions[..3]));
    }
  }

  lemma DoneHandsOn(task: OrchestrationTask, executions: seq<Execution>, artifacts: seq<Artifact>,
                    contexts: seq<Context>)
    requires AtStage(task, executions, artifacts, contexts, 4)
    ensures |executions| == 4 && AllHandedOn(executions, artifacts)
  {
    hide Orderly, Tests, Results, Output, Produced;
    var r := Results(executions);
    FirstResults(executions, 4);
    assert executions[..4] == executions;
    ProducedInFull(r);
    OutputExactly(0, r[0]);
    OutputExactly(1, r[1]);
    OutputExactly(2, r[2]);
    OutputExactly(3, r[3]);
  }

  /** The host's decision stands unless a cancel is pending, which overrides it. */
  function StopAfter(decision: Decision, cancelled: bool): Option<Status> {
    match decision
    case CancelFlow => Some(CancelledFlow)
    case Decline => Some(if cancelled then CancelledFlow else Declined)
    case Proceed => if cancelled then Some(CancelledFlow) else None
  }

  /**
   * Some runtime call of this stage, begun at or after `from`, gave the result for this context, or
   * threw, for which `failure` stands. Calls carry their stage, so two stages never share one.
   */
  ghost predicate RunGave(world: World, log: seq<Event>, from: nat, stage: nat, context: Context,
                          failure: AgentResult, result: AgentResult)
  {
    exists j :: from <= j <= |log| && LastOfWorker(log[..j]) == Some(Began(stage))
      && (world.run(log[..j], context) == Some(result) || (world.run(log[..j], context).None? && result == failure))
  }

  /** A single execution: its runtime call gave the result, or the flag was up before it. */
  ghost predicate RanAlone(world: World, log: seq<Event>, from: nat, context: Context, result: AgentResult) {
    || RunGave(world, log, from, 0, context, FAILED_AGENT, result)
    || (result == CANCELLED_AGENT && exists j :: from <= j < |log| && log[j] == Looked(BeforeRun, 0, true))
  }

  /** The result is the run, overridden by what the worker's last look at the flag saw. */
  ghost predicate DecidedByLook(log: seq<Event>, ran: AgentResult, result: AgentResult) {
    exists seen ::
      && LastOfWorker(log) == Some(Looked(AfterRun, 0, seen))
      && if seen || ran.status == Cancelled
         then && result.status == Cancelled && result.artifacts == ran.artifacts && result.error.None?
              && result.summary == if ran.summary == "" then "Execution cancelled." else ran.summary
         else result == ran
  }

  /** The factory was asked after the reset of this single execution, and made nothing. */
  ghost predicate NothingMade(world: World, log: seq<Event>, from: nat, profileId: string) {
    world.factory.Some?
    && exists j :: from <= j <= |log| && LastOfWorker(log[..j]) == Some(Reset)
         && !world.factory.value(log[..j], profileId).Built?
  }

  lemma NothingMadeEarlier(world: World, log: seq<Event>, early: nat, from: nat, profileId: string)
    requires early <= from && NothingMade(world, log, from, profileId)
    ensures NothingMade(world, log, early, profileId)
  {
  }

  /** The start callback of this stage threw. */
  ghost predicate StartThrew(world: World, log: seq<Event>, from: nat, stage: nat) {
    exists j :: from <= j <= |log| && LastOfWorker(log[..j]) == Some(Looked(AtHead, stage, false))
      && world.startThrows(log[..j])
  }

  /** What a stage may record: the result of its own call, or the failure of its start callback. */
  ghost predicate Returned(world: World, log: seq<Event>, from: nat, stage: nat, context: Context,
                           result: AgentResult)
  {
    || RunGave(world, log, from, stage, context, FAILED_RUN, result)
    || (result == FAILED_RUN && StartThrew(world, log, from, stage))
  }

  /** Every record holds what the runtime of its own stage returned for the context of that stage. */
  ghost predicate AllReturned(world: World, log: seq<Event>, from: nat, executions: seq<Execution>,
                              contexts: seq<Context>)
  {
    |executions| <= |contexts|
    && forall k :: 0 <= k < |executions| ==> Returned(world, log, from, k, contexts[k], executions[k].result)
  }

  // ---- how a workflow ends ----

  function BuildMessage(made: Made): string {
    if made.FactoryThrew? then "Agent runtime construction failed." else "Agent runtime factory returned no runtime."
  }

  const TASK_MESSAGE := "Orchestration requires an ID, objective, working directory and positive budgets."
  const FINISH_MESSAGE := "Orchestration stage callback failed."
  const BETWEEN_MESSAGE := "Orchestration continuation callback failed."

  function CallbackError(message: string, profileId: string): FlowError {
    FlowError("orchestration_callback_failed", message, profileId)
  }

  /** The error of a run that did not complete, as the workflow passes it on. */
  function Blame(result: AgentResult, profileId: string): FlowError {
    match result.error
    case Some(e) => FlowError(e.code, e.message, profileId)
    case None => FlowError("stage_incomplete", result.summary, profileId)
  }

  /** A run that did not complete ends the workflow with its own status, unless that is cancelled. */
  predicate Settles(result: AgentResult, profileId: string, flow: Workflow) {
    || result.status == Completed || flow.status == CancelledFlow
    || (&& flow.summary == result.summary
        && flow.error.Some? && flow.error.value.profileId == profileId
        && (match result.error
            case Some(e) => flow.error.value.code == e.code && flow.error.value.message == e.message
            case None => flow.error.value.code == "stage_incomplete" && flow.error.value.message == result.summary)
        && (match result.status
            case Failed => flow.status == FailedFlow
            case NeedsInput => flow.status == InputNeeded
            case NeedsConfirmation => flow.status == ConfirmationNeeded
            case _ => false))
  }

  /** Ends that somebody asked for carry no error. */
  predicate AskedFor(status: Status) {
    status.Done? || status.CancelledFlow? || status.Declined?
  }

  /** The end of a workflow in a stage whose run has been recorded. */
  predicate EndedAfter(flow: Workflow, stage: nat, result: AgentResult)
    requires stage < 4
  {
    var id := STAGES[stage].profileId;
    if AskedFor(flow.status) then
      && flow.error.None?
      && (flow.status.CancelledFlow? ==>
            flow.summary == "Workflow cancelled." || (flow.summary == result.summary != ""))
      && (flow.status.Declined? ==>
            flow.summary == "Workflow continuation declined." && result.status == Completed && stage < 3)
    else
      || (flow.status == FailedFlow && flow.summary == "Orchestration stage callback failed."
          && flow.error == Some(FlowError("orchestration_callback_failed", "Orchestration stage callback failed.", id)))
      || (flow.status == FailedFlow && result.status == Completed && stage < 3
          && flow.summary == "Orchestration continuation callback failed."
          && flow.error == Some(FlowError("orchestration_callback_failed",
                                          "Orchestration continuation callback failed.", id)))
      || (result.status != Completed && result.status != Cancelled && Settles(result, id, flow))
  }

  /** At or after `from` the factory was asked for the runtime of this stage, and made none. */
  ghost predicate BuildFailed(world: World, log: seq<Event>, from: nat, stage: nat, message: string)
    requires stage < 4 && world.factory.Some?
  {
    exists j :: from <= j <= |log| && LastOfWorker(log[..j]) == Some(Looked(AtHead, stage, false))
      && var made := world.factory.value(log[..j], STAGES[stage].profileId);
         && !made.Built?
         && message == if made.FactoryThrew? then "Agent runtime construction failed."
                       else "Agent runtime factory returned no runtime."
  }

  /** The workflow ended because the runtime of its next stage could not be made. */
  ghost predicate FailedToBuild(world: World, log: seq<Event>, from: nat, flow: Workflow) {
    var n := |flow.executions|;
    && n < 4 && world.factory.Some? && flow.status == FailedFlow
    && (n > 0 ==> flow.executions[n - 1].result.status == Completed)
    && BuildFailed(world, log, from, n, flow.summary)
    && flow.error == Some(FlowError("runtime_factory_failed", flow.summary, STAGES[n].profileId))
  }

  /** Why a workflow that got going ended the way it did. */
  ghost predicate EndExplained(world: World, log: seq<Event>, from: nat, flow: Workflow) {
    var n := |flow.executions|;
    if AskedFor(flow.status) then
      && flow.error.None?
      && (flow.status.CancelledFlow? ==>
            || flow.summary == "Workflow cancelled."
            || (0 < n && flow.summary == flow.executions[n - 1].result.summary != ""))
      && (flow.status.Declined? ==> flow.summary == "Workflow continuation declined." && 0 < n < 4)
    else FailedToBuild(world, log, from, flow) || (0 < n <= 4 && EndedAfter(flow, n - 1, flow.executions[n - 1].result))
  }

  lemma SamePrefixes(log: seq<Event>, more: seq<Event>)
    requires log <= more
    ensures forall j :: 0 <= j <= |log| ==> more[..j] == log[..j]
  {
  }

  lemma EndExplainedStays(world: World, log: seq<Event>, more: seq<Event>, early: nat, from: nat, flow: Workflow)
    requires EndExplained(world, log, from, flow) && log <= more && early <= from
    ensures EndExplained(world, more, early, flow)
  {
    SamePrefixes(log, more);
  }

  lemma StageNamesDiffer()
    ensures forall k :: 0 <= k < 4 ==> STAGES[k].profileId != ""
    ensures forall k :: 0 <= k < 3 ==> STAGES[k].profileId != STAGES[k + 1].profileId
  {
    assert STAGES[0].profileId[0] == 'e' && STAGES[1].profileId[0] == 'p';
    assert STAGES[2].profileId[0] == 'c' && STAGES[3].profileId[0] == 'r';
  }

  /**
   * The profile an error names is that of the stage that was about to run when its runtime could
   * not be made, and otherwise that of the last record.
   */
  lemma ErrorNamesItsStage(world: World, log: seq<Event>, from: nat, flow: Workflow)
    requires EndExplained(world, log, from, flow) && !AskedFor(flow.status)
    ensures flow.error.Some? && flow.error.value.profileId != ""
    ensures var n, id := |flow.executions|, flow.error.value.profileId;
            if FailedToBuild(world, log, from, flow) then n < 4 && id == STAGES[n].profileId
            else 0 < n <= 4 && id == STAGES[n - 1].profileId && (n < 4 ==> id != STAGES[n].profileId)
  {
    StageNamesDiffer();
  }

  /** A workflow that never started: an error without a profile, and nothing else. */
  predicate RefusedFlow(flow: Workflow) {
    && flow.status == FailedFlow && flow.executions == [] && flow.artifacts == []
    && flow.error.Some? && flow.error.value.profileId == ""
  }

  function StageId(stage: nat): string
    requires stage < 4
  {
    STAGES[stage].profileId
  }

  /** The end of a workflow between two stages. */
  function StoppedFlow(flow: Workflow, profileId: string, stop: Status, threw: bool): Workflow {
    if threw then
      flow.(status := FailedFlow, summary := BETWEEN_MESSAGE, error := Some(CallbackError(BETWEEN_MESSAGE, profileId)))
    else
      flow.(status := stop,
            summary := if stop == Declined then "Workflow continuation declined." else "Workflow cancelled.")
  }

  lemma StopIsExplained(flow: Workflow, index: nat, result: AgentResult, stop: Status, threw: bool)
    requires index < 4 && flow.error.None? && result.status == Completed
    requires if threw then stop == FailedFlow && index < 3 else stop == CancelledFlow || (stop == Declined && index < 3)
    ensures var end := StoppedFlow(flow, StageId(index), stop, threw);
            && EndedAfter(end, index, result) && Settles(result, StageId(index), end) && end.status == stop != Done
            && end.executions == flow.executions && end.artifacts == flow.artifacts
  {
  }

  function CancelledWorkflow(flow: Workflow): Workflow {
    flow.(status := CancelledFlow, summary := "Workflow cancelled.")
  }

  lemma CancelIsExplained(world: World, log: seq<Event>, from: nat, before: Workflow)
    requires before.error.None?
    ensures var end := CancelledWorkflow(before);
            && EndExplained(world, log, from, end) && end.status == CancelledFlow
            && end.executions == before.executions && end.artifacts == before.artifacts
  {
  }

  lemma NotBuiltIsExplained(world: World, log: seq<Event>, from: nat, task: OrchestrationTask, seen: seq<Context>,
                            n: nat, flow: Workflow)
    requires n < 4 && AtStage(task, flow.executions, flow.artifacts, seen, n) && world.factory.Some?
    requires from <= |log| && LastOfWorker(log) == Some(Looked(AtHead, n, false))
    requires var made := world.factory.value(log, STAGES[n].profileId);
             && !made.Built? && flow.status == FailedFlow && flow.summary == BuildMessage(made)
             && flow.error == Some(FlowError("runtime_factory_failed", BuildMessage(made), STAGES[n].profileId))
    ensures EndExplained(world, log, from, flow)
  {
    hide Orderly, LastOfWorker, EndedAfter;
    assert log[..|log|] == log;
  }

  lemma RecordExplains(world: World, log: seq<Event>, from: nat, flow: Workflow, index: nat, result: AgentResult)
    requires index < 4 && |flow.executions| == index + 1 && flow.executions[index].result == result
    ensures EndedAfter(flow, index, result) ==> EndExplained(world, log, from, flow)
  {
  }

  /** Nobody but cancellers has added to the log. */
  ghost predicate OnlyCancellers(before: seq<Event>, log: seq<Event>) {
    before <= log && LastOfWorker(log) == LastOfWorker(before)
  }

  /** The log at the end of a run: cancellers may have acted since its last step. */
  ghost predicate EndedAs(before: seq<Event>, log: seq<Event>, solo: bool, status: Status) {
    before < log && log[|log| - 1] == Ended(solo, status) && OnlyCancellers(before, log[..|log| - 1])
  }

  lemma LastOfWorkerIsLast(log: seq<Event>, e: Event)
    requires log != [] && log[|log| - 1] == e && ByWorker(e)
    ensures LastOfWorker(log) == Some(e)
  {
  }

  /** The host was asked at or after `from`: an exception fails, else its answer and the last look decide. */
  ghost predicate DecidedByHost(world: World, from: nat, log: seq<Event>, index: nat, result: AgentResult,
                                artifact: Artifact, stop: Option<Status>, threw: bool)
    requires world.between.Some?
  {
    exists j :: from <= j <= |log|
      && match world.between.value(log[..j], result, artifact)
         case None => threw && stop == Some(FailedFlow)
         case Some(decision) =>
           && !threw && log != []
           && exists seen ::
                && log[|log| - 1] == Looked(AfterDecision, index, seen)
                && (stop == if seen || decision == CancelFlow then Some(CancelledFlow)
                            else if decision == Decline then Some(Declined)
                            else None)
  }

  /** The machine state after the end of a stage, with or without a reason to stop. */
  ghost function Stopping(s: State, stop: Option<Status>): State {
    if stop.Some? then s.(pc := Unwinding(stop.value)) else Advance(s)
  }

  lemma DecidingStep(s: State, c: Choice, decision: Decision)
    requires s.pc == Deciding(decision)
    ensures Step(s, c) == Stopping(Note(s, Looked(AfterDecision, s.index, s.cancel)), StopAfter(decision, s.cancel))
  {
  }

  lemma CancellerLeavesNoWork(log: seq<Event>)
    ensures LastOfWorker(log + [Stored]) == LastOfWorker(log)
    ensures LastOfWorker(log + [Stored] + [Poked(true)]) == LastOfWorker(log)
    ensures log + [Stored] + [Poked(true)] == log + ([Stored] + [Poked(true)])
    ensures log + [Stored] == log + ([Stored] + [])
  {
    hide LastOfWorker;
    LogMore(log, Stored);
    LogMore(log + [Stored], Poked(true));
    assert log + [Stored] + [Poked(true)] == log + ([Stored] + [Poked(true)]);
    assert [Stored] + [] == [Stored];
  }

  lemma LastIs(log: seq<Event>, e: Event)
    requires ByWorker(e)
    ensures LastOfWorker(log + [e]) == Some(e)
  {
    hide LastOfWorker;
    LogMore(log, e);
  }

  const BUSY := PreflightFailure("orchestrator_busy", "An orchestration workflow is already running.")

  lemma DoneIsExplained(world: World, log: seq<Event>, from: nat, flow: Workflow)
    requires flow.status == Done && flow.error.None?
    ensures EndExplained(world, log, from, flow)
  {
  }

  lemma ErrorIsNamed(world: World, log: seq<Event>, from: nat, flow: Workflow)
    requires EndExplained(world, log, from, flow)
    ensures flow.error.Some? ==> flow.error.value.profileId != ""
  {
    if flow.error.Some? { ErrorNamesItsStage(world, log, from, flow); }
  }

  lemma EmptyIsAtStage(task: OrchestrationTask)
    ensures AtStage(task, [], [], [], 0) && Orderly(task, [], [], [])
  {
  }

  lemma NothingReturned(world: World, from: nat)
    ensures forall log :: AllReturned(world, log, from, [], [])
  {
  }

  lemma RunGaveEarlier(world: World, log: seq<Event>, early: nat, from: nat, stage: nat, context: Context,
                       failure: AgentResult, result: AgentResult)
    requires early <= from
    ensures RunGave(world, log, from, stage, context, failure, result) ==>
              RunGave(world, log, early, stage, context, failure, result)
  {
  }

  lemma RanAloneEarlier(world: World, log: seq<Event>, early: nat, from: nat, context: Context, result: AgentResult)
    requires early <= from
    ensures RanAlone(world, log, from, context, result) ==> RanAlone(world, log, early, context, result)
  {
    hide RunGave;
    RunGaveEarlier(world, log, early, from, 0, context, FAILED_AGENT, result);
  }

  lemma RunGaveStays(world: World, log: seq<Event>, more: seq<Event>, from: nat, stage: nat, context: Context,
                     failure: AgentResult, result: AgentResult)
    requires log <= more
    ensures RunGave(world, log, from, stage, context, failure, result) ==>
              RunGave(world, more, from, stage, context, failure, result)
  {
    SamePrefixes(log, more);
  }

  lemma RanAloneStays(world: World, log: seq<Event>, more: seq<Event>, from: nat, context: Context, result: AgentResult)
    requires log <= more
    ensures RanAlone(world, log, from, context, result) ==> RanAlone(world, more, from, context, result)
  {
    hide RunGave;
    RunGaveStays(world, log, more, from, 0, context, FAILED_AGENT, result);
    assert forall j :: 0 <= j < |log| ==> more[j] == log[j];
  }

  lemma StartFailed(world: World, log: seq<Event>, from: nat, stage: nat, context: Context)
    requires from <= |log| && LastOfWorker(log) == Some(Looked(AtHead, stage, false)) && world.startThrows(log)
    ensures Returned(world, log, from, stage, context, FAILED_RUN)
  {
    assert log[..|log|] == log;
  }

  lemma CallReturned(world: World, log: seq<Event>, early: nat, from: nat, stage: nat, context: Context,
                     result: AgentResult)
    requires early <= from && RunGave(world, log, from, stage, context, FAILED_RUN, result)
    ensures Returned(world, log, early, stage, context, result)
  {
    RunGaveEarlier(world, log, early, from, stage, context, FAILED_RUN, result);
  }

  lemma ReturnedStays(world: World, log: seq<Event>, more: seq<Event>, from: nat, stage: nat, context: Context,
                      result: AgentResult)
    requires Returned(world, log, from, stage, context, result) && log <= more
    ensures Returned(world, more, from, stage, context, result)
  {
    hide RunGave;
    RunGaveStays(world, log, more, from, stage, context, FAILED_RUN, result);
    SamePrefixes(log, more);
  }

  lemma AllReturnedStays(world: World, log: seq<Event>, more: seq<Event>, from: nat, executions: seq<Execution>,
                         contexts: seq<Context>)
    requires AllReturned(world, log, from, executions, contexts) && log <= more
    ensures AllReturned(world, more, from, executions, contexts)
  {
    hide Returned;
    forall k | 0 <= k < |executions| ensures Returned(world, more, from, k, contexts[k], executions[k].result) {
      ReturnedStays(world, log, more, from, k, contexts[k], executions[k].result);
    }
  }

  lemma AllReturnedWider(world: World, log: seq<Event>, from: nat, executions: seq<Execution>, contexts: seq<Context>,
                         context: Context)
    requires AllReturned(world, log, from, executions, contexts)
    ensures AllReturned(world, log, from, executions, contexts + [context])
  {
    hide Returned;
    assert forall k :: 0 <= k < |executions| ==> (contexts + [context])[k] == contexts[k];
  }

  lemma ReturnedEarlier(world: World, log: seq<Event>, early: nat, from: nat, stage: nat, context: Context,
                        result: AgentResult)
    requires early <= from && Returned(world, log, from, stage, context, result)
    ensures Returned(world, log, early, stage, context, result)
  {
    hide RunGave;
    RunGaveEarlier(world, log, early, from, stage, context, FAILED_RUN, result);
  }

  lemma AllReturnedMore(world: World, log: seq<Event>, more: seq<Event>, from: nat, executions: seq<Execution>,
                        contexts: seq<Context>, e: Execution, context: Context)
    requires AllReturned(world, log, from, executions, contexts) && log <= more && |executions| == |contexts|
    requires from <= |log| && Returned(world, more, |log|, |executions|, context, e.result)
    ensures AllReturned(world, more, from, executions + [e], contexts + [context])
  {
    hide Returned;
    AllReturnedStays(world, log, more, from, executions, contexts);
    ReturnedEarlier(world, more, from, |log|, |executions|, context, e.result);
  }

  /** Appends the test results of a run. */
  method AppendTests(artifacts: seq<Artifact>, more: seq<Artifact>) returns (all: seq<Artifact>)
    ensures all == artifacts + Tests(more)
  {
    all := artifacts;
    for i := 0 to |more|
      invariant all == artifacts + Tests(more[..i])
    {
      TestsSnoc(more, i);
      if more[i].kind == TestResult {
        all := all + [more[i]];
      }
    }
    assert more[..|more|] == more;
  }

  lemma StageIsOrderly(task: OrchestrationTask, executions: seq<Execution>, artifacts: seq<Artifact>,
                       contexts: seq<Context>, n: nat)
    requires AtStage(task, executions, artifacts, contexts, n)
    ensures Orderly(task, executions, artifacts, contexts)
    ensures artifacts == Produced(Results(executions)) && |executions| == |contexts| == n
  {
  }

  lemma ContextAdded(task: OrchestrationTask, executions: seq<Execution>, artifacts: seq<Artifact>,
                     contexts: seq<Context>, context: Context)
    requires |executions| < 4 && AtStage(task, executions, artifacts, contexts, |executions|)
    requires context == ContextAt(task, executions)
    ensures Orderly(task, executions, artifacts, contexts + [context])
  {
    hide Produced, Results, Scope, UserRequestOf;
    assert executions[..|executions|] == executions;
  }

  lemma ExecutionRecorded(task: OrchestrationTask, executions: seq<Execution>, artifacts: seq<Artifact>,
                          contexts: seq<Context>, e: Execution)
    requires |executions| < 4 && AtStage(task, executions, artifacts, contexts, |executions|)
    requires e.profileId == STAGES[|executions|].profileId
    ensures Orderly(task, executions + [e], artifacts, contexts + [ContextAt(task, executions)])
  {
    hide Results, Scope, UserRequestOf, ContextAt;
    var more := executions + [e];
    assert more[..|executions|] == executions;
    forall k | 0 <= k < |contexts| ensures contexts[k] == ContextAt(task, more[..k]) {
      assert more[..k] == executions[..k];
    }
  }

  lemma StageCompleted(task: OrchestrationTask, executions: seq<Execution>, artifacts: seq<Artifact>,
                       contexts: seq<Context>, e: Execution)
    requires |executions| < 4 && AtStage(task, executions, artifacts, contexts, |executions|)
    requires e.profileId == STAGES[|executions|].profileId && e.result.status == Completed
    ensures AtStage(task, executions + [e], artifacts + Output(|executions|, e.result),
                    contexts + [ContextAt(task, executions)], |executions| + 1)
  {
    var more := executions + [e];
    ExecutionRecorded(task, executions, artifacts, contexts, e);
    assert Results(more)[..|executions|] == Results(executions);
    ProducedMore(Results(more));
  }

  /** A worker at this program counter reads the flag next. */
  predicate Reads(pc: Pc, point: Point) {
    match point
    case AtHead => pc.Head?
    case BeforeRun => pc.Gating?
    case AfterRun => pc.Judging?
    case AfterDecision => false
  }

  class AgentOrchestrator {
    const profiles: set<string>
    var executing: bool
    var cancelRequested: bool
    var activeRuntime: Option<nat>
    var created: nat
    var log: seq<Event>
    ghost var actions: seq<Action>

    ghost function M(): State
      reads this
    {
      Run(actions)
    }

    /** The fields are those of the machine after `actions`, with no canceller half way. */
    ghost predicate Valid()
      reads this
    {
      && executing == M().executing && cancelRequested == M().cancel && activeRuntime == M().active
      && created == M().created && log == M().log && M().lock == Free && M().cancellers == 0
    }

    constructor (profiles: set<string>)
      ensures Valid() && !executing && this.profiles == profiles
    {
      this.profiles := profiles;
      executing, cancelRequested, activeRuntime, created, log := false, false, None, 0, [];
      actions := [];
    }

    ghost method Tick(a: Action)
      modifies this`actions
      ensures actions == old(actions) + [a] && M() == Next(old(M()), a)
    {
      actions := actions + [a];
      assert actions[..|actions| - 1] == old(actions);
    }

    /** Stores the flag and, under the mutex, calls the active runtime if there is one. */
    method CancelActiveExecution()
      requires Valid()
      modifies this
      ensures Valid() && cancelRequested
      ensures M() == old(M()).(cancel := true, log := log)
      ensures log == old(log) + [Stored] + if old(activeRuntime).Some? then [Poked(true)] else []
    {
      PointerIsAlive(actions);
      hide Run, Step;
      cancelRequested := true;
      log := log + [Stored];
      Tick(Store);
      Tick(Acquire);
      if activeRuntime.Some? {
        log := log + [Poked(true)];
      }
      Tick(Poke);
      Tick(Release);
    }

    /** A canceller may act here. */
    method Interrupt(world: World)
      requires Valid()
      modifies this
      ensures Valid() && M() == old(M()).(cancel := cancelRequested, log := log)
      ensures OnlyCancellers(old(log), log)
    {
      hide LastOfWorker, Run;
      CancellerLeavesNoWork(log);
      ghost var before := log;
      if world.interrupts(log) {
        CancelActiveExecution();
        assert log == before + [Stored] || log == before + [Stored] + [Poked(true)];
      }
    }

    /** One of the worker's reads of the flag, after whatever a canceller did. */
    method ReadFlag(world: World, point: Point, index: nat) returns (seen: bool)
      requires Valid() && index == M().index && Reads(M().pc, point)
      modifies this
      ensures Valid() && old(log) < log && seen == cancelRequested
      ensures log[|log| - 1] == Looked(point, index, seen)
      ensures M() == old(M()).(cancel := seen, log := log, pc := Step(old(M()).(cancel := seen), NO_CHOICE).pc)
    {
      hide Run;
      Interrupt(world);
      seen := cancelRequested;
      log := log + [Looked(point, index, seen)];
      Tick(Work(NO_CHOICE));
    }

    /** Calls the factory. */
    method MakeRuntime(world: World, profileId: string) returns (made: Made)
      requires Valid() && M().pc.Building? && world.factory.Some?
      modifies this
      ensures Valid() && OnlyCancellers(old(log), log)
      ensures made == world.factory.value(log, profileId)
      ensures M() == Step(old(M()).(cancel := M().cancel, log := M().log),
                          Choice(made.FactoryThrew?, made.Built?, Completed, Proceed))
    {
      hide Run, LastOfWorker;
      Interrupt(world);
      made := world.factory.value(log, profileId);
      if made.Built? {
        created := created + 1;
      }
      Tick(Work(Choice(made.FactoryThrew?, made.Built?, Completed, Proceed)));
    }

    /** The runtime call itself; an exception counts as a failed run. */
    method Launch(world: World, index: nat, context: Context, failure: AgentResult) returns (result: AgentResult)
      requires Valid() && M().pc.Launching? && index == M().index && failure.status == Failed
      modifies this
      ensures Valid() && old(log) <= log && RunGave(world, log, |old(log)|, index, context, failure, result)
      ensures M() == old(M()).(cancel := M().cancel, log := log, pc := Retracting(result.status))
    {
      hide Run, LastOfWorker;
      Interrupt(world);
      LastIs(log, Began(index));
      log := log + [Began(index)];
      Tick(Work(NO_CHOICE));
      Interrupt(world);
      var outcome := world.run(log, context);
      assert log[..|log|] == log;
      if outcome.Some? {
        result := outcome.value;
        Tick(Work(NO_CHOICE.(status := result.status)));
      } else {
        result := failure;
        Tick(Work(NO_CHOICE.(throws := true)));
      }
    }

    /** Sets the runtime pointer. */
    method Publish(world: World)
      requires Valid() && M().pc.Publishing?
      modifies this
      ensures Valid() && OnlyCancellers(old(log), log)
      ensures M() == old(M()).(cancel := M().cancel, log := M().log, active := old(M()).alive,
                               pc := if old(M()).solo then Gating else Starting)
    {
      hide Run, LastOfWorker;
      Interrupt(world);
      RunKeeps(actions);
      activeRuntime := Some(created - 1);
      Tick(Work(NO_CHOICE));
    }

    /** Calls the start callback of a stage. */
    method Announce(world: World) returns (threw: bool)
      requires Valid() && M().pc.Starting?
      modifies this
      ensures Valid() && OnlyCancellers(old(log), log) && threw == world.startThrows(log)
      ensures M() == old(M()).(cancel := M().cancel, log := M().log, pc := if threw then Retracting(Failed) else Gating)
    {
      hide Run, LastOfWorker;
      Interrupt(world);
      threw := world.startThrows(log);
      Tick(Work(NO_CHOICE.(throws := threw)));
    }

    /** Clears the runtime pointer. */
    method Retract(world: World)
      requires Valid() && (M().pc.Retracting? || M().pc.Abandoning?)
      modifies this
      ensures Valid() && OnlyCancellers(old(log), log)
      ensures M() == old(M()).(cancel := M().cancel, log := M().log, active := None,
                               pc := if old(M()).pc.Abandoning? then Unwinding(CancelledFlow)
                                     else if old(M()).solo then Judging(old(M()).pc.status)
                                     else Reporting(old(M()).pc.status))
    {
      hide Run, LastOfWorker;
      Interrupt(world);
      activeRuntime := None;
      Tick(Work(NO_CHOICE));
    }

    /** The part of a stage during which its runtime is published; no record without it. */
    method UseRuntime(world: World, index: nat, context: Context) returns (result: Option<AgentResult>)
      requires Valid() && M().pc.Publishing? && index == M().index && !M().solo
      requires LastOfWorker(log) == Some(Looked(AtHead, index, false))
      modifies this
      ensures Valid() && old(log) <= log
      ensures result.Some? ==> Returned(world, log, |old(log)|, index, context, result.value)
      ensures M() == old(M()).(cancel := M().cancel, log := M().log, active := None,
                               pc := if result.Some? then Reporting(result.value.status) else Unwinding(CancelledFlow))
    {
      hide Run, Valid, LastOfWorker, Returned;
      Publish(world);
      var threw := Announce(world);
      if threw {
        StartFailed(world, log, |old(log)|, index, context);
        ghost var announced := log;
        Retract(world);
        ReturnedStays(world, announced, log, |old(log)|, index, context, FAILED_RUN);
        return Some(FAILED_RUN);
      }
      var seen := ReadFlag(world, BeforeRun, index);
      if seen {
        Retract(world);
        return None;
      }
      ghost var gate := |log|;
      var r := Launch(world, index, context, FAILED_RUN);
      CallReturned(world, log, |old(log)|, gate, index, context, r);
      ghost var ran := log;
      Retract(world);
      ReturnedStays(world, ran, log, |old(log)|, index, context, r);
      result := Some(r);
    }

    /** Leaves a stage early: the runtime, if any, is destroyed. */
    method Unwind(world: World)
      requires Valid() && M().pc.Unwinding?
      modifies this
      ensures Valid() && OnlyCancellers(old(log), log) && old(log) <= log
      ensures M() == old(M()).(cancel := M().cancel, log := M().log, alive := None, pc := Exiting(old(M()).pc.result))
    {
      hide Run, LastOfWorker;
      Interrupt(world);
      Tick(Work(NO_CHOICE));
    }

    /** Records the result, and calls the finish callback. */
    method Report(world: World) returns (threw: bool)
      requires Valid() && M().pc.Reporting?
      modifies this
      ensures Valid() && OnlyCancellers(old(log), log)
      ensures M() == old(M()).(cancel := M().cancel, log := M().log, records := old(M()).records + 1,
                               pc := if threw then Unwinding(FailedFlow) else Judging(old(M()).pc.status))
    {
      hide Run, LastOfWorker;
      Interrupt(world);
      threw := world.finishThrows(log);
      Tick(Work(NO_CHOICE.(throws := threw)));
    }

    /** Asks the host about the next stage; no decision when nobody is asked, or the callback throws. */
    method Consult(world: World, index: nat, result: AgentResult, artifact: Artifact)
      returns (decision: Option<Decision>, threw: bool)
      requires Valid() && M().pc.Between? && index == M().index < 4
      modifies this
      ensures Valid() && OnlyCancellers(old(log), log)
      ensures var asked := index + 1 < 4 && world.between.Some?;
              && decision == (if asked then world.between.value(log, result, artifact) else None)
              && threw == (asked && decision.None?)
      ensures var before := old(M()).(cancel := M().cancel, log := M().log);
              M() == if threw then before.(pc := Unwinding(FailedFlow))
                     else if decision.Some? then before.(pc := Deciding(decision.value))
                     else Advance(before)
    {
      hide Run, LastOfWorker;
      Interrupt(world);
      if index + 1 >= 4 || world.between.None? {
        Tick(Work(NO_CHOICE.(present := false)));
        return None, false;
      }
      decision := world.between.value(log, result, artifact);
      threw := decision.None?;
      Tick(Work(Choice(threw, true, Completed, if threw then Proceed else decision.value)));
    }

    /** The last look at the flag of a stage, after the host's decision. */
    method Heed(world: World, index: nat, decision: Decision) returns (stop: Option<Status>, seen: bool)
      requires Valid() && M().pc == Deciding(decision) && index == M().index < 4
      modifies this
      ensures Valid() && old(log) < log && log[|log| - 1] == Looked(AfterDecision, index, seen)
      ensures stop == StopAfter(decision, seen)
      ensures M() == Stopping(old(M()).(cancel := M().cancel, log := log), stop)
    {
      hide Run, Step;
      Interrupt(world);
      DecidingStep(M(), NO_CHOICE, decision);
      seen := cancelRequested;
      log := log + [Looked(AfterDecision, index, seen)];
      Tick(Work(NO_CHOICE));
      stop := if seen || decision == CancelFlow then Some(CancelledFlow)
              else if decision == Decline then Some(Declined)
              else None;
    }

    /** Between two stages: the host's decision, and one more look at the flag. */
    method Decide(world: World, index: nat, result: AgentResult, artifact: Artifact)
      returns (stop: Option<Status>, threw: bool)
      requires Valid() && M().pc.Between? && index == M().index < 4
      modifies this
      ensures Valid() && old(log) <= log
      ensures if index + 1 < 4 && world.between.Some?
              then DecidedByHost(world, |old(log)|, log, index, result, artifact, stop, threw)
              else stop.None? && !threw
      ensures M() == Stopping(old(M()).(cancel := M().cancel, log := M().log), stop)
    {
      hide Run, Valid, LastOfWorker;
      var decision;
      decision, threw := Consult(world, index, result, artifact);
      ghost var asked := log;
      assert log[..|asked|] == asked;
      if decision.None? {
        return if threw then Some(FailedFlow) else None, threw;
      }
      var seen;
      stop, seen := Heed(world, index, decision.value);
      SamePrefixes(asked, log);
      assert log[..|asked|] == asked && log[|log| - 1] == Looked(AfterDecision, index, seen);
    }

    /** The first part of a stage: the cancel flag, the runtime, and the context it is given. */
    method Prepare(index: nat, task: OrchestrationTask, world: World, before: Workflow, seen: seq<Context>)
      returns (early: Option<Workflow>, context: Context)
      requires Valid() && M().pc.Head? && index == M().index < 4 && !M().solo && world.factory.Some?
      requires AtStage(task, before.executions, before.artifacts, seen, index) && before.error.None?
      modifies this
      ensures Valid() && !M().solo && M().index == index && old(log) <= log
      ensures early.None? ==> M().pc.Publishing? && LastOfWorker(log) == Some(Looked(AtHead, index, false))
                              && context == ContextAt(task, before.executions)
      ensures early.Some? ==> M().pc == Exiting(early.value.status) && early.value.status != Done
                              && early.value.executions == before.executions
                              && early.value.artifacts == before.artifacts
                              && EndExplained(world, log, |old(log)|, early.value)
    {
      hide Run, Valid, Orderly, AtStage, Produced, Results, EndExplained, LastOfWorker, BuildMessage, Scope;
      StageIsOrderly(task, before.executions, before.artifacts, seen, index);
      var profileId := STAGES[index].profileId;
      early, context := None, ContextAt(task, before.executions);
      var cancelled := ReadFlag(world, AtHead, index);
      LastOfWorkerIsLast(log, Looked(AtHead, index, cancelled));
      if cancelled {
        Unwind(world);
        early := Some(CancelledWorkflow(before));
        CancelIsExplained(world, log, |old(log)|, before);
        return;
      }
      var made := MakeRuntime(world, profileId);
      if !made.Built? {
        early := Some(before.(status := FailedFlow, summary := BuildMessage(made),
                              error := Some(FlowError("runtime_factory_failed", BuildMessage(made), profileId))));
        NotBuiltIsExplained(world, log, |old(log)|, task, seen, index, early.value);
        ghost var asked := log;
        Unwind(world);
        EndExplainedStays(world, asked, log, |old(log)|, |old(log)|, early.value);
        return;
      }
      var artifacts := ArtifactsForStage(profileId, task.initial, before.artifacts);
      context := Context(profileId, [UserRequestOf(task)], artifacts);
    }

    /** After the record: the cancel flag and the outcome of the run. */
    method Judge(index: nat, world: World, recorded: Workflow, result: AgentResult)
      returns (flow: Workflow, good: bool)
      requires Valid() && M().pc == Judging(result.status) && index == M().index < 4 && !M().solo
      requires recorded.error.None?
      modifies this
      ensures Valid() && old(log) <= log && !M().solo
      ensures flow.executions == recorded.executions && flow.artifacts == recorded.artifacts
      ensures good ==> flow == recorded && result.status == Completed && M().pc == Between && M().index == index
      ensures !good ==> EndedAfter(flow, index, result) && Settles(result, StageId(index), flow)
      ensures !good ==> M().pc == Exiting(flow.status) && flow.status != Done
    {
      hide Run, Valid, HasText;
      flow, good := recorded, false;
      var cancelled := ReadFlag(world, AfterRun, index);
      if cancelled || result.status == Cancelled {
        Unwind(world);
        flow := recorded.(status := CancelledFlow,
                          summary := if result.summary == "" then "Workflow cancelled." else result.summary);
        return;
      }
      if result.status != Completed {
        Unwind(world);
        flow := recorded.(status := StatusOf(result.status), summary := result.summary,
                          error := Some(Blame(result, StageId(index))));
        return;
      }
      good := true;
    }

    /** Adds the artifacts of a completed stage. */
    method Collect(index: nat, recorded: Workflow, result: AgentResult) returns (flow: Workflow, own: Artifact)
      requires index < 4
      ensures flow == recorded.(artifacts := recorded.artifacts + Output(index, result))
      ensures own == Own(index, result)
    {
      hide Tests;
      own := Artifact(STAGES[index].output, STAGES[index].profileId, result.summary);
      var produced := AppendTests(recorded.artifacts + [own], result.artifacts);
      assert produced == recorded.artifacts + Output(index, result);
      flow := recorded.(artifacts := produced);
    }

    /** What follows a record: its judgement, the artifacts of a good run, and the host's decision. */
    method Assess(index: nat, world: World, recorded: Workflow, result: AgentResult)
      returns (flow: Workflow, more: bool)
      requires Valid() && M().pc == Judging(result.status) && index == M().index < 4 && !M().solo
      requires recorded.error.None?
      modifies this
      ensures Valid() && !M().solo && old(log) <= log && flow.executions == recorded.executions
      ensures !more ==> EndedAfter(flow, index, result) && Settles(result, StageId(index), flow)
      ensures flow.artifacts == recorded.artifacts
              || (result.status == Completed && flow.artifacts == recorded.artifacts + Output(index, result))
      ensures more ==> result.status == Completed
                       && flow == recorded.(artifacts := recorded.artifacts + Output(index, result))
      ensures more ==> M().index == index + 1 && M().pc == if index + 1 < 4 then Head else Exiting(Done)
      ensures !more ==> M().pc == Exiting(flow.status) && flow.status != Done
    {
      hide Run, Valid, Blame, Output, EndedAfter, Settles, StoppedFlow;
      var good;
      flow, good := Judge(index, world, recorded, result);
      if !good {
        more := false;
        return;
      }
      var own;
      flow, own := Collect(index, recorded, result);
      var stop, threw := Decide(world, index, result, own);
      more := stop.None?;
      if stop.Some? {
        StopIsExplained(flow, index, result, stop.value, threw);
        flow := StoppedFlow(flow, StageId(index), stop.value, threw);
        Unwind(world);
      }
    }

    /** The second half of a stage: its record, and what follows from it. */
    method CloseStage(index: nat, task: OrchestrationTask, world: World, before: Workflow, seen: seq<Context>,
                      result: AgentResult)
      returns (flow: Workflow, more: bool)
      requires Valid() && M().pc == Reporting(result.status) && index == M().index < 4 && !M().solo
      requires AtStage(task, before.executions, before.artifacts, seen, index) && before.error.None?
      modifies this
      ensures Valid() && !M().solo && old(log) <= log
      ensures flow.executions == before.executions + [Execution(StageId(index), result)]
      ensures Orderly(task, flow.executions, flow.artifacts, seen + [ContextAt(task, before.executions)])
      ensures more ==>
                AtStage(task, flow.executions, flow.artifacts, seen + [ContextAt(task, before.executions)], index + 1)
      ensures more ==> M().index == index + 1 && M().pc == if index + 1 < 4 then Head else Exiting(Done)
      ensures !more ==> M().pc == Exiting(flow.status) && flow.status != Done
      ensures if more then flow.error.None? else EndedAfter(flow, index, result)
      ensures |before.executions| == index
    {
      hide Run, Valid, Orderly, AtStage, ContextAt, Scope, Produced, Results, Output, Settles;
      StageIsOrderly(task, before.executions, before.artifacts, seen, index);
      var record := Execution(StageId(index), result);
      var recorded := before.(executions := before.executions + [record]);
      ExecutionRecorded(task, before.executions, before.artifacts, seen, record);
      if result.status == Completed {
        StageCompleted(task, before.executions, before.artifacts, seen, record);
        StageIsOrderly(task, recorded.executions, before.artifacts + Output(index, result),
                       seen + [ContextAt(task, before.executions)], index + 1);
      }
      var threw := Report(world);
      if threw {
        Unwind(world);
        flow := recorded.(status := FailedFlow, summary := FINISH_MESSAGE,
                          error := Some(CallbackError(FINISH_MESSAGE, StageId(index))));
        more := false;
        return;
      }
      flow, more := Assess(index, world, recorded, result);
    }

    /** One stage; `more` tells whether the loop goes on. */
    method RunStage(index: nat, task: OrchestrationTask, world: World, before: Workflow, seen: seq<Context>,
                    ghost from: nat)
      returns (flow: Workflow, contexts: seq<Context>, more: bool)
      requires Valid() && M().pc.Head? && index == M().index < 4 && !M().solo && world.factory.Some?
      requires AtStage(task, before.executions, before.artifacts, seen, index) && before.error.None?
      requires from <= |log| && AllReturned(world, log, from, before.executions, seen)
      modifies this
      ensures Valid() && !M().solo && old(log) <= log
      ensures Orderly(task, flow.executions, flow.artifacts, contexts)
      ensures AllReturned(world, log, from, flow.executions, contexts)
      ensures more ==> AtStage(task, flow.executions, flow.artifacts, contexts, index + 1) && flow.error.None?
      ensures more ==> M().index == index + 1 && M().pc == if index + 1 < 4 then Head else Exiting(Done)
      ensures !more ==> M().pc == Exiting(flow.status) && flow.status != Done
      ensures !more ==> EndExplained(world, log, |old(log)|, flow)
    {
      hide *;
      StageIsOrderly(task, before.executions, before.artifacts, seen, index);
      var early, context := Prepare(index, task, world, before, seen);
      AllReturnedStays(world, old(log), log, from, before.executions, seen);
      if early.Some? {
        return early.value, seen, false;
      }
      contexts := seen + [context];
      ContextAdded(task, before.executions, before.artifacts, seen, context);
      AllReturnedWider(world, log, from, before.executions, seen, context);
      ghost var prepared := log;
      var used := UseRuntime(world, index, context);
      if used.None? {
        Unwind(world);
        AllReturnedStays(world, prepared, log, from, before.executions, contexts);
        flow, more := CancelledWorkflow(before), false;
        CancelIsExplained(world, log, |old(log)|, before);
        return;
      }
      ghost var reported := log;
      AllReturnedMore(world, prepared, log, from, before.executions, seen, Execution(StageId(index), used.value),
                      context);
      flow, more := CloseStage(index, task, world, before, seen, used.value);
      AllReturnedStays(world, reported, log, from, flow.executions, contexts);
      RecordExplains(world, log, |old(log)|, flow, index, used.value);
    }

    /** The workflow gets as far as its first stage. */
    ghost predicate Startable(task: OrchestrationTask, world: World) {
      && Described(task) && world.factory.Some? && task.maxAgentRuns >= 4
      && "explorer" in profiles && "planner" in profiles && "coder" in profiles && "reviewer" in profiles
    }

    /** The checks before the first stage, in order. */
    method Preflight(task: OrchestrationTask, world: World) returns (failure: Option<Workflow>)
      ensures failure.None? <==> Startable(task, world)
      ensures failure.None? ==> world.factory.Some?
      ensures failure.Some? ==> RefusedFlow(failure.value)
      ensures failure.Some? ==>
                failure.value.error.value.code == if !Described(task) then "invalid_orchestration_task"
                                                  else if world.factory.None? then "missing_runtime_factory"
                                                  else if task.maxAgentRuns < 4 then "agent_run_budget_exhausted"
                                                  else "missing_standard_profile"
    {
      hide HasText, Visible, TASK_MESSAGE;
      DescribedExactly(task);
      StageNames();
      if !ValidWorkflow(task) {
        return Some(PreflightFailure("invalid_orchestration_task", TASK_MESSAGE));
      }
      if world.factory.None? {
        return Some(PreflightFailure("missing_runtime_factory", "An agent runtime factory is required."));
      }
      if task.maxAgentRuns < |STAGES| {
        return Some(PreflightFailure("agent_run_budget_exhausted", "The workflow requires four agent runs."));
      }
      for k := 0 to |STAGES|
        invariant forall j :: 0 <= j < k ==> STAGES[j].profileId in profiles
      {
        if STAGES[k].profileId !in profiles {
          return Some(PreflightFailure("missing_standard_profile",
                                       "A required standard agent profile is missing: " + STAGES[k].profileId));
        }
      }
      failure := None;
    }

    /** The stage loop. */
    method RunStages(task: OrchestrationTask, world: World, ghost from: nat)
      returns (flow: Workflow, contexts: seq<Context>)
      requires Valid() && M().pc.Head? && M().index == 0 && !M().solo && world.factory.Some? && from <= |log|
      modifies this
      ensures Valid() && old(log) <= log && M().pc == Exiting(flow.status) && !M().solo
      ensures Orderly(task, flow.executions, flow.artifacts, contexts)
      ensures AllReturned(world, log, from, flow.executions, contexts)
      ensures EndExplained(world, log, from, flow)
      ensures flow.status == Done ==> AtStage(task, flow.executions, flow.artifacts, contexts, 4)
                                      && |flow.executions| == 4 && flow.summary == flow.executions[3].result.summary
    {
      hide Run, Valid, Orderly, AtStage, AllReturned, EndExplained;
      NothingReturned(world, from);
      EmptyIsAtStage(task);
      flow, contexts := Workflow(FailedFlow, "", [], [], None), [];
      var index, more := 0, true;
      while index < 4
        invariant Valid() && !M().solo && old(log) <= log && index <= 4 && M().index == index
        invariant M().pc == if index < 4 then Head else Exiting(Done)
        invariant AtStage(task, flow.executions, flow.artifacts, contexts, index)
        invariant AllReturned(world, log, from, flow.executions, contexts) && flow.error.None?
      {
        ghost var begun := |log|;
        flow, contexts, more := RunStage(index, task, world, flow, contexts, from);
        if !more {
          EndExplainedStays(world, log, log, from, begun, flow);
          return;
        }
        index := index + 1;
      }
      StageIsOrderly(task, flow.executions, flow.artifacts, contexts, 4);
      flow := flow.(status := Done, summary := flow.executions[|flow.executions| - 1].result.summary);
      DoneIsExplained(world, log, from, flow);
    }

    method TurnAway()
      requires Valid() && executing
      modifies this
      ensures Valid() && executing && cancelRequested == old(cancelRequested) && log == old(log) + [Busy]
    {
      log := log + [Busy];
      Tick(Call(false, false));
    }

    /** Takes the busy flag and clears the cancel flag; a canceller may act in between. */
    method BeginRun(world: World, ready: bool, solo: bool)
      requires Valid() && !executing
      modifies this
      ensures Valid() && executing && M().index == 0 && old(log) <= log && LastOfWorker(log) == Some(Reset)
      ensures M().solo == solo && M().pc == if !ready then Exiting(FailedFlow) else if solo then Building else Head
    {
      RunKeeps(actions);
      hide Run, LastOfWorker;
      executing := true;
      Tick(Call(ready, solo));
      Interrupt(world);
      cancelRequested := false;
      LastIs(log, Reset);
      log := log + [Reset];
      Tick(Work(NO_CHOICE));
      Interrupt(world);
      Tick(Work(NO_CHOICE));
    }

    /** Gives the busy flag back; a canceller may act right before. */
    method EndRun(world: World, solo: bool, status: Status)
      requires Valid() && M().pc == Exiting(status) && M().solo == solo
      modifies this
      ensures Valid() && !executing && EndedAs(old(log), log, solo, status)
    {
      hide Run, LastOfWorker;
      Interrupt(world);
      RunKeeps(actions);
      ghost var before := log;
      executing := false;
      log := log + [Ended(solo, status)];
      Tick(Work(NO_CHOICE));
      assert log[..|log| - 1] == before;
    }

    /** One workflow. `contexts` are the contexts that were prepared, in order. */
    method Execute(task: OrchestrationTask, world: World) returns (flow: Workflow, contexts: seq<Context>)
      requires Valid()
      modifies this
      ensures Valid() && executing == old(executing) && old(log) <= log
      ensures old(executing) ==> log == old(log) + [Busy] && cancelRequested == old(cancelRequested)
                                 && flow == BUSY && contexts == []
      ensures !old(executing) ==> |old(log)| < |log| && log[|log| - 1] == Ended(false, flow.status)
      ensures Orderly(task, flow.executions, flow.artifacts, contexts)
      ensures Named(flow.executions) && |flow.executions| <= |contexts| <= |flow.executions| + 1
      ensures HandsOn(task, flow.executions, contexts)
      ensures flow.status == Done ==> |flow.executions| == 4 && AllHandedOn(flow.executions, flow.artifacts)
      ensures AllReturned(world, log, |old(log)|, flow.executions, contexts)
      ensures old(executing) || !Startable(task, world) ==> RefusedFlow(flow) && contexts == []
      ensures !old(executing) && Startable(task, world) ==> EndExplained(world, log, |old(log)|, flow)
      ensures flow.error.Some? ==>
                (flow.error.value.profileId == "" <==> old(executing) || !Startable(task, world))
      ensures flow.status == Done ==> AtStage(task, flow.executions, flow.artifacts, contexts, 4)
                                      && flow.summary == flow.executions[3].result.summary
    {
      hide Run, Valid, Orderly, AtStage, AllReturned, EndExplained, Startable, Named, HandsOn, AllHandedOn;
      ghost var from := |log|;
      NothingReturned(world, from);
      EmptyIsAtStage(task);
      contexts := [];
      if executing {
        TurnAway();
        flow := BUSY;
        OrderlyIsNamed(task, [], [], []);
        OrderlyHandsOn(task, [], [], []);
        return;
      }
      var failure := Preflight(task, world);
      BeginRun(world, failure.None?, false);
      if failure.Some? {
        flow := failure.value;
        OrderlyIsNamed(task, [], [], []);
        OrderlyHandsOn(task, [], [], []);
        EndRun(world, false, flow.status);
        return;
      }
      flow, contexts := RunStages(task, world, from);
      OrderlyIsNamed(task, flow.executions, flow.artifacts, contexts);
      OrderlyHandsOn(task, flow.executions, flow.artifacts, contexts);
      if flow.status == Done { DoneHandsOn(task, flow.executions, flow.artifacts, contexts); }
      ghost var ran := log;
      EndRun(world, false, flow.status);
      AllReturnedStays(world, ran, log, from, flow.executions, contexts);
      EndExplainedStays(world, ran, log, from, from, flow);
      ErrorIsNamed(world, log, from, flow);
    }

    /** From the publishing of the runtime to its retraction. */
    method RunPublished(world: World, context: Context) returns (result: AgentResult)
      requires Valid() && M().pc.Publishing? && M().solo && M().index == 0
      modifies this
      ensures Valid() && old(log) <= log && RanAlone(world, log, |old(log)|, context, result)
      ensures M().solo && M().index == 0 && M().pc == Judging(result.status)
    {
      hide Run, Valid, RunGave, LastOfWorker;
      Publish(world);
      var seen := ReadFlag(world, BeforeRun, 0);
      if seen {
        result := CANCELLED_AGENT;
      } else {
        ghost var gate := |log|;
        result := Launch(world, 0, context, FAILED_AGENT);
        RunGaveEarlier(world, log, |old(log)|, gate, 0, context, FAILED_AGENT, result);
      }
      ghost var before := log;
      Retract(world);
      RanAloneStays(world, before, log, |old(log)|, context, result);
    }

    /** The part of a single run during which its runtime is published, and the last look at the flag. */
    method UseRuntimeAlone(world: World, context: Context) returns (result: AgentResult, seen: bool)
      requires Valid() && M().pc.Publishing? && M().solo && M().index == 0
      modifies this
      ensures Valid() && old(log) <= log && RanAlone(world, log, |old(log)|, context, result)
      ensures LastOfWorker(log) == Some(Looked(AfterRun, 0, seen))
      ensures M().solo && M().pc == Unwinding(StatusOf(if seen then Cancelled else result.status))
    {
      hide Run, Valid, RanAlone, LastOfWorker;
      result := RunPublished(world, context);
      ghost var before := log;
      seen := ReadFlag(world, AfterRun, 0);
      LastOfWorkerIsLast(log, Looked(AfterRun, 0, seen));
      RanAloneStays(world, before, log, |old(log)|, context, result);
    }

    /** A single run, from the making of its runtime to the end. */
    method RunAlone(world: World, context: Context) returns (result: AgentResult, ran: Option<AgentResult>)
      requires Valid() && M().pc.Building? && M().solo && M().index == 0 && world.factory.Some?
      requires LastOfWorker(log) == Some(Reset)
      modifies this
      ensures Valid() && !executing && old(log) < log
      ensures log[|log| - 1] == Ended(true, StatusOf(result.status))
      ensures ran.Some? ==> RanAlone(world, log, |old(log)|, context, ran.value)
      ensures ran.Some? ==> DecidedByLook(log[..|log| - 1], ran.value, result)
      ensures ran.None? ==> result.status == Failed && NothingMade(world, log, |old(log)|, context.profileId)
    {
      hide Run, Valid, RanAlone, BuildMessage, LastOfWorker;
      var made := MakeRuntime(world, context.profileId);
      ghost var before := log;
      if !made.Built? {
        Unwind(world);
        EndRun(world, true, FailedFlow);
        SamePrefixes(before, log);
        assert log[..|before|] == before;
        return FailedWith("runtime_factory_failed", BuildMessage(made)), None;
      }
      var given, seen := UseRuntimeAlone(world, context);
      RanAloneEarlier(world, log, |old(log)|, |before|, context, given);
      AsCancelledIs(given);
      result, ran := Overridden(given, seen), Some(given);
      before := log;
      Unwind(world);
      EndRun(world, true, StatusOf(result.status));
      RanAloneStays(world, before, log, |old(log)|, context, given);
    }

    /** The checks before a single run. */
    method PreflightAgent(profileId: string, task: Task, world: World) returns (refusal: Option<AgentResult>)
      ensures refusal.None? <==> ValidTask(task) && world.factory.Some? && profileId in profiles
      ensures refusal.Some? ==> refusal.value.status == Failed
      ensures !ValidTask(task) ==> HasCode(refusal.value, "invalid_agent_task")
      ensures ValidTask(task) && world.factory.None? ==> HasCode(refusal.value, "missing_runtime_factory")
      ensures ValidTask(task) && world.factory.Some? && profileId !in profiles ==>
                HasCode(refusal.value, "unknown_agent_profile")
    {
      hide ValidTask;
      if !ValidTask(task) {
        return Some(FailedWith("invalid_agent_task",
                               "Agent execution requires an ID, objective, working directory and positive budget."));
      }
      if world.factory.None? {
        return Some(FailedWith("missing_runtime_factory", "An agent runtime factory is required."));
      }
      if profileId !in profiles {
        return Some(FailedWith("unknown_agent_profile", "The requested agent profile is not registered."));
      }
      refusal := None;
    }

    /**
     * One agent run without a workflow. `ran` is what the run gave, if there was one: it is the
     * result, unless the flag is up afterwards or the run itself was cancelled.
     */
    method ExecuteAgent(profileId: string, task: Task, world: World)
      returns (result: AgentResult, ran: Option<AgentResult>)
      requires Valid()
      modifies this
      ensures Valid() && executing == old(executing) && old(log) <= log
      ensures old(executing) ==> log == old(log) + [Busy] && cancelRequested == old(cancelRequested)
                                 && HasCode(result, "orchestrator_busy") && ran.None?
      ensures !old(executing) ==> log != [] && log[|log| - 1] == Ended(true, StatusOf(result.status))
      ensures ran.Some? ==> RanAlone(world, log, |old(log)|, Context(profileId, task.inputs, []), ran.value)
      ensures ran.Some? ==> |old(log)| < |log| && DecidedByLook(log[..|log| - 1], ran.value, result)
      ensures ran.Some? ==> !old(executing) && ValidTask(task) && world.factory.Some? && profileId in profiles
      ensures ran.None? ==> result.status == Failed
      ensures !old(executing) && ran.None? && ValidTask(task) && world.factory.Some? && profileId in profiles ==>
                NothingMade(world, log, |old(log)|, profileId)
    {
      hide Run, Valid, RanAlone, HasText, DecidedByLook, ValidTask, NothingMade;
      ghost var from := |log|;
      if executing {
        TurnAway();
        return FailedWith("orchestrator_busy", "An agent execution is already running."), None;
      }
      var refusal := PreflightAgent(profileId, task, world);
      BeginRun(world, refusal.None?, true);
      if refusal.Some? {
        EndRun(world, true, FailedFlow);
        return refusal.value, None;
      }
      var context := Context(profileId, task.inputs, []);
      ghost var begun := |log|;
      result, ran := RunAlone(world, context);
      if ran.Some? { RanAloneEarlier(world, log, from, begun, context, ran.value); }
      else { NothingMadeEarlier(world, log, from, begun, profileId); }
    }
  }
}
