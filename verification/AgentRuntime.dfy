/** One agent run: checks, registry, budget, session, and the outcome it reports. */
module AgentRuntimes {
  import opened Options
  import opened JsonValues
  import opened Backoff
  import opened DeepSeekProviding
  import opened AgentLog
  import opened AgentResults
  import opened AgentHosting
  import opened AgentSessions
  import opened History
  import opened Permissions

  datatype Capabilities = Capabilities(systemInstruction: bool, tools: bool)

  const DEFAULT_HISTORY := 40

  const TASK_MESSAGE := "Task requires an ID, objective, working directory and positive budget."
  const PROFILE_MESSAGE := "Profile requires an ID and positive budget."
  const BUDGET_MESSAGE := "Step budget exceeds the supported session range."
  const ENVIRONMENT_MESSAGE := "An explicit provider, credential and model are required."
  const TOOLS_MESSAGE := "Tool bindings must be non-null with unique non-empty names."
  const MODEL_MESSAGE := "Configured model cannot support the required system instructions or exposed tools."

  const STOPPED := AgentResult(Cancelled, "Execution cancelled.", [], None)

  /** The step budget of a run: the task's own limit never exceeds the profile's. */
  function Budget(profile: Profile, task: Task): nat {
    match task.constraints.maxSteps
    case Some(n) => if n < profile.maxSteps then n else profile.maxSteps
    case None => profile.maxSteps
  }

  /** Neither limit is exceeded, and one of the two is what the budget is. */
  lemma BudgetIsSmaller(profile: Profile, task: Task)
    ensures Budget(profile, task) <= profile.maxSteps
    ensures task.constraints.maxSteps.Some? ==> Budget(profile, task) <= task.constraints.maxSteps.value
    ensures Budget(profile, task) == profile.maxSteps || Some(Budget(profile, task)) == task.constraints.maxSteps
  {
  }

  /** Task and profile are named and described, with positive limits, the smaller of which fits 32 bits. */
  ghost predicate UsableBudget(profile: Profile, task: Task) {
    && Visible(task.id) && Visible(task.objective) && task.workingDirectory != "" && Visible(profile.id)
    && profile.maxSteps > 0 && (task.constraints.maxSteps.Some? ==> task.constraints.maxSteps.value > 0)
    && (profile.maxSteps <= 0x7fff_ffff
        || (task.constraints.maxSteps.Some? && task.constraints.maxSteps.value <= 0x7fff_ffff))
  }

  lemma UsableExactly(profile: Profile, task: Task)
    ensures UsableBudget(profile, task) <==>
              ValidTask(task) && HasText(profile.id) && profile.maxSteps > 0 && Budget(profile, task) <= INT32_MAX
  {
    hide HasText, Visible;
    HasTextExactly(task.id);
    HasTextExactly(task.objective);
    HasTextExactly(profile.id);
  }

  lemma EmptyLog(env: Env, registry: Registry)
    ensures Sound(env, registry, [])
  {
  }

  /** The registry of these bindings stays empty. */
  ghost predicate ExposesNothing(profile: Profile, readOnly: bool, bindings: seq<Binding>) {
    forall i :: 0 <= i < |bindings| ==> !Exposed(profile, readOnly, bindings[i])
  }

  lemma EmptyRegistry(profile: Profile, readOnly: bool, bindings: seq<Binding>, registry: Registry)
    requires RegistryOf(profile, readOnly, bindings, registry)
    ensures registry == map[] <==> ExposesNothing(profile, readOnly, bindings)
  {
    if registry != map[] {
      var name :| name in registry;
      var i :| 0 <= i < |bindings| && Exposed(profile, readOnly, bindings[i]) && bindings[i].tool.value.name == name;
    }
  }

  /** A confirmation was needed, but there was no handler. */
  ghost predicate HandlerMissed(log: seq<Event>) {
    exists i :: 0 <= i < |log| && log[i].Unattended?
  }

  ghost predicate UserDeclined(log: seq<Event>) {
    exists i :: 0 <= i < |log| && log[i].Confirm? && !log[i].approved
  }

  ghost predicate EndsWith(log: seq<Event>, seen: bool) {
    log != [] && log[|log| - 1] == CancelRead(seen)
  }

  /** The outcome of a run, in terms of what the session said and what the log shows. */
  ghost predicate Reports(said: PromptResult, log: seq<Event>, profileId: string, r: AgentResult) {
    var answered := said.Ended? && said.ok && EndsWith(log, false);
    && (r.status == Completed <==> answered && !HandlerMissed(log) && !UserDeclined(log))
    && (r.status == NeedsConfirmation <==> answered && HandlerMissed(log))
    && (HasCode(r, "confirmation_required") <==> r.status == NeedsConfirmation)
    && (HasCode(r, "permission_denied") <==> answered && !HandlerMissed(log) && UserDeclined(log))
    && (r.status == Cancelled <==> said.Ended? && (said.cancelled || EndsWith(log, true)))
    && (HasCode(r, "session_failed") <==> said.Ended? && !said.ok && !said.cancelled && EndsWith(log, false))
    && (HasCode(r, "execution_exception") <==> said.Thrown?)
    && (r.status == Cancelled ==> SawCancel(log) && r == AgentResult(Cancelled, "Execution cancelled.", [], None))
    && (HasCode(r, "session_failed") ==> r.status == Failed && r.summary == said.message && r.artifacts == [])
    && (said.Thrown? ==> Broke(log))
    && (r.status == Completed ==>
          r == AgentResult(Completed, said.message, [Artifact(Generic, profileId, said.message)], None))
  }

  /** What a runtime was made with. */
  datatype Setup = Setup(hasProvider: bool, apiKey: string, model: string, tools: seq<Binding>,
                         capabilities: Capabilities)

  ghost predicate Equipped(setup: Setup, profile: Profile, task: Task) {
    UsableBudget(profile, task) && setup.hasProvider && setup.apiKey != "" && setup.model != ""
  }

  /** The run gets as far as a session. */
  ghost predicate Ready(setup: Setup, profile: Profile, task: Task) {
    && Equipped(setup, profile, task) && ValidBindings(setup.tools)
    && setup.capabilities.systemInstruction
    && (setup.capabilities.tools || ExposesNothing(profile, task.constraints.readOnly, setup.tools))
  }

  /** What every run keeps; `said` is the session's result, if it got that far. */
  ghost predicate RunKept(setup: Setup, profile: Profile, task: Task, env: Env, said: Option<PromptResult>,
                          result: AgentResult, log: seq<Event>, registry: Registry)
  {
    && Sound(env, registry, log)
    && (said.Some? <==> Ready(setup, profile, task))
    && (said.None? ==> log == [] && result.status == Failed)
    && (said.Some? ==> RegistryOf(profile, task.constraints.readOnly, setup.tools, registry)
                       && Calls(log) <= profile.maxSteps
                       && (task.constraints.maxSteps.Some? ==> Calls(log) <= task.constraints.maxSteps.value)
                       && Reports(said.value, log, profile.id, result))
  }

  lemma EmptyIsPaired(sent: seq<seq<Message>>)
    ensures Paired(sent, sent, []) && PairedAfterTrim([], DEFAULT_HISTORY)
  {
  }

  lemma CleanedIsPaired(sent0: seq<seq<Message>>, sent: seq<seq<Message>>, h: seq<Message>)
    requires Paired(sent0, sent, h)
    ensures Paired(sent0, sent, [])
  {
  }

  lemma NoCalls()
    ensures Calls([]) == 0
  {
  }

  lemma SaidSoFar(result: PromptResult, maxToolRounds: int32, rounds: seq<Round>, turn: ModelTurn, log: seq<Event>)
    requires Justified(result, maxToolRounds, rounds, turn, log)
    ensures result.Thrown? ==> Broke(log)
    ensures result.Ended? && result.cancelled ==> !result.ok && SawCancel(log)
  {
  }

  class AgentRuntime {
    const provider: DeepSeekProvider?
    const apiKey: string
    const model: string
    const tools: seq<Binding>
    const capabilities: Capabilities
    var executing: bool

    constructor (provider: DeepSeekProvider?, apiKey: string, model: string, tools: seq<Binding>,
                 capabilities: Capabilities)
      ensures this.provider == provider && this.apiKey == apiKey && this.model == model
      ensures this.tools == tools && this.capabilities == capabilities && !executing
    {
      this.provider, this.apiKey, this.model := provider, apiKey, model;
      this.tools, this.capabilities := tools, capabilities;
      executing := false;
    }

    function Given(): Setup {
      Setup(provider != null, apiKey, model, tools, capabilities)
    }

    /** The checks on what the run was given. */
    method CheckInputs(profile: Profile, task: Task) returns (refusal: Option<AgentResult>)
      ensures refusal.None? <==> Equipped(Given(), profile, task)
      ensures refusal.Some? ==> refusal.value.status == Failed
      ensures refusal.Some? && !ValidTask(task) ==> HasCode(refusal.value, "invalid_task")
      ensures refusal.Some? && ValidTask(task) && (!Visible(profile.id) || profile.maxSteps == 0) ==>
                HasCode(refusal.value, "invalid_profile")
      ensures UsableBudget(profile, task) && refusal.Some? ==> HasCode(refusal.value, "invalid_environment")
    {
      hide HasText, Visible, UsableBudget, TASK_MESSAGE, PROFILE_MESSAGE, BUDGET_MESSAGE, ENVIRONMENT_MESSAGE;
      HasTextExactly(profile.id);
      UsableExactly(profile, task);
      if !ValidTask(task) {
        return Some(FailedWith("invalid_task", TASK_MESSAGE));
      }
      if !HasText(profile.id) || profile.maxSteps == 0 {
        return Some(FailedWith("invalid_profile", PROFILE_MESSAGE));
      }
      if Budget(profile, task) > INT32_MAX {
        return Some(FailedWith("invalid_budget", BUDGET_MESSAGE));
      }
      if provider == null || apiKey == "" || model == "" {
        return Some(FailedWith("invalid_environment", ENVIRONMENT_MESSAGE));
      }
      refusal := None;
    }

    /** All checks before a session is made, and the registry it will see. */
    method Preflight(profile: Profile, task: Task) returns (refusal: Option<AgentResult>, registry: Registry)
      ensures refusal.None? <==> Ready(Given(), profile, task)
      ensures refusal.Some? ==> refusal.value.status == Failed
      ensures Equipped(Given(), profile, task) && !ValidBindings(tools) ==> HasCode(refusal.value, "invalid_tools")
      ensures Equipped(Given(), profile, task) && ValidBindings(tools) && refusal.Some? ==>
                HasCode(refusal.value, "model_incompatible")
      ensures refusal.None? ==> RegistryOf(profile, task.constraints.readOnly, tools, registry)
    {
      hide RegistryOf, ValidBindings, ExposesNothing, Equipped, TOOLS_MESSAGE, MODEL_MESSAGE;
      registry := map[];
      refusal := CheckInputs(profile, task);
      if refusal.Some? {
        return;
      }
      var built := BuildRegistry(profile, task.constraints.readOnly, tools);
      if built.None? {
        return Some(FailedWith("invalid_tools", TOOLS_MESSAGE)), registry;
      }
      registry := built.value;
      EmptyRegistry(profile, task.constraints.readOnly, tools, registry);
      if !capabilities.systemInstruction || (registry != map[] && !capabilities.tools) {
        refusal := Some(FailedWith("model_incompatible", MODEL_MESSAGE));
      }
    }

    /** The outcome, read off the session's result, the cancel flag and the permission flags. */
    method Conclude(host: Host, outcome: PromptResult, profileId: string) returns (result: AgentResult)
      requires host.Valid()
      requires outcome.Thrown? ==> Broke(host.log)
      requires outcome.Ended? && outcome.cancelled ==> !outcome.ok && SawCancel(host.log)
      modifies host
      ensures host.Valid() && Calls(host.log) == Calls(old(host.log))
      ensures Reports(outcome, host.log, profileId, result)
    {
      hide Calls, Sound, SawCancel, Broke;
      if outcome.Thrown? {
        return FailedWith("execution_exception", "Execution failed in the provider, tool or callback.");
      }
      var stopped := outcome.cancelled;
      if !stopped {
        stopped := host.ReadCancel();
      }
      if stopped {
        return STOPPED;
      }
      if !outcome.ok {
        return FailedWith("session_failed", outcome.message);
      }
      if host.needsConfirmation {
        return FailedWith("confirmation_required", "A tool requires a confirmation handler.")
               .(status := NeedsConfirmation);
      }
      if host.declined {
        return FailedWith("permission_denied", "A tool operation was declined.");
      }
      result := AgentResult(Completed, outcome.message, [Artifact(Generic, profileId, outcome.message)], None);
    }

    /** The conversation of a run, and its cleaning up. */
    method Converse(profileId: string, prompt: string, instruction: string, steps: nat, env: Env, tools: Registry)
      returns (result: AgentResult, said: Option<PromptResult>, log: seq<Event>, registry: Registry,
               turn: ModelTurn)
      requires provider != null && provider.Valid()
      requires 0 < steps <= INT32_MAX && apiKey != "" && model != ""
      modifies provider
      ensures provider.Valid() && provider.messages == []
      ensures Paired(old(provider.sent), provider.sent, [])
      ensures said.Some? && registry == tools && Sound(env, tools, log) && Calls(log) <= steps
      ensures OutOfRounds(said.value, turn) ==> Calls(log) == steps
      ensures Opened([], instruction, prompt, old(provider.sent), provider.sent)
      ensures Reports(said.value, log, profileId, result)
    {
      hide Calls, Sound, Reports, Paired, PairedAfterTrim;
      var host := new Host(env, tools);
      var session := new AgentSession(provider, apiKey, model, instruction, (steps - 1) as int32, DEFAULT_HISTORY);
      provider.ResetSession();
      ghost var sent0 := provider.sent;
      EmptyLog(env, tools);
      assert Calls([]) == 0 by { NoCalls(); }
      EmptyIsPaired(sent0);
      var outcome, rounds;
      outcome, rounds, turn := session.Prompt(prompt, host);
      BudgetKept(sent0, provider.sent, rounds, Calls(host.log));
      CleanedIsPaired(sent0, provider.sent, provider.messages);
      provider.ResetSession();
      SaidSoFar(outcome, session.maxToolRounds, rounds, turn, host.log);
      result := Conclude(host, outcome, profileId);
      said, log, registry := Some(outcome), host.log, tools;
    }

    method Run(profile: Profile, task: Task, prompt: string, instruction: string, env: Env)
      returns (result: AgentResult, said: Option<PromptResult>, log: seq<Event>, registry: Registry,
               turn: ModelTurn)
      requires provider != null ==> provider.Valid()
      modifies provider
      ensures provider != null ==> provider.Valid()
      ensures RunKept(Given(), profile, task, env, said, result, log, registry)
      ensures said.Some? ==> provider != null && provider.messages == []
      ensures said.Some? ==> Paired(old(provider.sent), provider.sent, [])
      ensures said.Some? ==> Opened([], instruction, prompt, old(provider.sent), provider.sent)
      ensures said.Some? ==> Calls(log) <= profile.maxSteps
      ensures said.Some? && task.constraints.maxSteps.Some? ==> Calls(log) <= task.constraints.maxSteps.value
      ensures said.Some? && OutOfRounds(said.value, turn) ==>
                Calls(log) == profile.maxSteps || task.constraints.maxSteps == Some(Calls(log))
    {
      hide Sound, RegistryOf, ValidBindings, HasText, Calls, Reports, DeepSeekProvider.Valid, ExposesNothing, Paired;
      registry, log, said, turn := map[], [], None, FailedTurn("", false);
      BudgetIsSmaller(profile, task);
      UsableExactly(profile, task);
      EmptyLog(env, registry);
      var refusal, built := Preflight(profile, task);
      if refusal.Some? {
        result := refusal.value;
        return;
      }
      result, said, log, registry, turn := Converse(profile.id, prompt, instruction, Budget(profile, task), env, built);
    }

    /**
     * One run. `log` is what it did, `registry` what it exposed, and `said` what the session
     * answered. The run starts from an empty conversation and leaves none behind.
     */
    method Execute(profile: Profile, task: Task, prompt: string, instruction: string, env: Env)
      returns (result: AgentResult, said: Option<PromptResult>, log: seq<Event>, registry: Registry,
               turn: ModelTurn)
      requires provider != null ==> provider.Valid()
      modifies this, provider
      ensures provider != null ==> provider.Valid()
      ensures executing == old(executing)
      ensures old(executing) ==> HasCode(result, "runtime_busy") && said.None? && log == []
      ensures !old(executing) ==> RunKept(Given(), profile, task, env, said, result, log, registry)
      ensures said.Some? ==> provider != null && provider.messages == []
      ensures said.Some? ==> Paired(old(provider.sent), provider.sent, [])
      ensures said.Some? ==> Opened([], instruction, prompt, old(provider.sent), provider.sent)
      ensures said.Some? ==> Calls(log) <= profile.maxSteps
      ensures said.Some? && task.constraints.maxSteps.Some? ==> Calls(log) <= task.constraints.maxSteps.value
      ensures said.Some? && OutOfRounds(said.value, turn) ==>
                Calls(log) == profile.maxSteps || task.constraints.maxSteps == Some(Calls(log))
    {
      hide Reports, Calls, Sound, RegistryOf, ValidBindings, Paired;
      registry, log, said, turn := map[], [], None, FailedTurn("", false);
      if executing {
        result := FailedWith("runtime_busy", "This runtime is already executing a task.");
        return;
      }
      executing := true;
      result, said, log, registry, turn := Run(profile, task, prompt, instruction, env);
      executing := false;
    }
  }
}
