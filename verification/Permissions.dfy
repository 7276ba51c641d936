/** Which tools of an environment a profile and task expose, and how they are guarded. */
module Permissions {
  import opened Options
  import opened AgentLog

  datatype Operation = ReadFile | WriteFile | DeleteFile | RunCommand | Network | GitCommit | GitPush
  datatype Decision = Allow | Deny | AskUser

  datatype Profile = Profile(id: string, allowedTools: seq<string>, permissions: map<Operation, Decision>,
                             maxSteps: nat)

  /** A bound tool: none for a null pointer, else its name and its own wish for confirmation. */
  datatype Tool = Tool(name: string, native: bool)
  datatype Binding = Binding(tool: Option<Tool>, operations: seq<Operation>)

  /** Unconfigured operations are denied. */
  function DecisionFor(profile: Profile, operation: Operation): Decision {
    if operation in profile.permissions then profile.permissions[operation] else Deny
  }

  predicate Denies(profile: Profile, readOnly: bool, operation: Operation) {
    DecisionFor(profile, operation) == Deny || (readOnly && operation != ReadFile)
  }

  /** The binding is exposed: its tool is allowed by name and none of its operations is refused. */
  predicate Exposed(profile: Profile, readOnly: bool, b: Binding) {
    && b.tool.Some? && b.tool.value.name in profile.allowedTools
    && b.operations != []
    && forall k | 0 <= k < |b.operations| :: !Denies(profile, readOnly, b.operations[k])
  }

  /** The guard an exposed binding is wrapped in. */
  function Guard(profile: Profile, b: Binding): PermissionTool
    requires b.tool.Some?
  {
    PermissionTool(exists k | 0 <= k < |b.operations| :: DecisionFor(profile, b.operations[k]) == AskUser,
                   exists k | 0 <= k < |b.operations| :: b.operations[k] != ReadFile,
                   b.tool.value.native)
  }

  /** Non-null tools with distinct non-empty names. */
  ghost predicate ValidBindings(bindings: seq<Binding>) {
    && (forall i :: 0 <= i < |bindings| ==> bindings[i].tool.Some? && bindings[i].tool.value.name != "")
    && forall i, j :: 0 <= i < j < |bindings| && bindings[i].tool.Some? && bindings[j].tool.Some? ==>
         bindings[i].tool.value.name != bindings[j].tool.value.name
  }

  /** The registry holds exactly the exposed bindings, each under its name and behind its guard. */
  ghost predicate RegistryOf(profile: Profile, readOnly: bool, bindings: seq<Binding>, registry: Registry) {
    && (forall i :: 0 <= i < |bindings| && Exposed(profile, readOnly, bindings[i]) ==>
          && bindings[i].tool.value.name in registry
          && registry[bindings[i].tool.value.name] == Guard(profile, bindings[i]))
    && forall name :: name in registry ==>
         exists i :: 0 <= i < |bindings| && Exposed(profile, readOnly, bindings[i])
                     && bindings[i].tool.value.name == name
  }

  /** The profile configures the operation, not as denied; a read-only task reads files only. */
  ghost predicate ConfiguredFor(profile: Profile, readOnly: bool, operation: Operation) {
    && operation in profile.permissions && profile.permissions[operation] != Deny
    && (readOnly ==> operation == ReadFile)
  }

  /** Some operation of the binding is configured to ask the user. */
  ghost predicate Asks(profile: Profile, b: Binding) {
    exists k :: 0 <= k < |b.operations| && b.operations[k] in profile.permissions
      && profile.permissions[b.operations[k]] == AskUser
  }

  /** Some operation of the binding is more than reading files. */
  ghost predicate Changes(b: Binding) {
    exists k :: 0 <= k < |b.operations| && b.operations[k] != ReadFile
  }

  /** Named, allowed by name, with operations, all of them configured. */
  ghost predicate Entitled(profile: Profile, readOnly: bool, b: Binding) {
    && b.tool.Some? && b.tool.value.name in profile.allowedTools && b.operations != []
    && forall k :: 0 <= k < |b.operations| ==> ConfiguredFor(profile, readOnly, b.operations[k])
  }

  lemma ExposedExactly(profile: Profile, readOnly: bool, b: Binding)
    ensures Exposed(profile, readOnly, b) <==> Entitled(profile, readOnly, b)
    ensures b.tool.Some? ==>
              && (Guard(profile, b).ask <==> Asks(profile, b)) && (Guard(profile, b).mutates <==> Changes(b))
              && Guard(profile, b).native == b.tool.value.native
  {
    forall o ensures !Denies(profile, readOnly, o) <==> ConfiguredFor(profile, readOnly, o) {
    }
  }

  /** The tool of an entitled binding is registered, and asks as configured. */
  ghost predicate RegisteredAs(profile: Profile, b: Binding, registry: Registry)
    requires b.tool.Some?
  {
    && b.tool.value.name in registry
    && (registry[b.tool.value.name].mutates <==> Changes(b))
    && (registry[b.tool.value.name].ask || registry[b.tool.value.name].native <==>
        b.tool.value.native || Asks(profile, b))
  }

  /** The registry holds the tools of all entitled bindings, and of no others, each asking as configured. */
  ghost predicate RegistersEntitled(profile: Profile, readOnly: bool, bindings: seq<Binding>, registry: Registry) {
    && (forall i :: 0 <= i < |bindings| && Entitled(profile, readOnly, bindings[i]) ==>
          RegisteredAs(profile, bindings[i], registry))
    && forall name :: name in registry ==>
         exists i :: 0 <= i < |bindings| && Entitled(profile, readOnly, bindings[i])
                     && bindings[i].tool.value.name == name
  }

  lemma RegistryExactly(profile: Profile, readOnly: bool, bindings: seq<Binding>, registry: Registry)
    requires RegistryOf(profile, readOnly, bindings, registry)
    ensures RegistersEntitled(profile, readOnly, bindings, registry)
  {
    forall i | 0 <= i < |bindings|
      ensures Exposed(profile, readOnly, bindings[i]) <==> Entitled(profile, readOnly, bindings[i])
      ensures Entitled(profile, readOnly, bindings[i]) ==> RegisteredAs(profile, bindings[i], registry)
    {
      hide Exposed, Guard, Asks, Changes, ConfiguredFor;
      ExposedExactly(profile, readOnly, bindings[i]);
    }
    hide Exposed, Entitled, Guard, RegisteredAs;
  }

  /** The loop over one binding's operations. */
  method Inspect(profile: Profile, readOnly: bool, b: Binding) returns (denied: bool, ask: bool, mutates: bool)
    requires b.tool.Some? && b.tool.value.name in profile.allowedTools
    ensures denied == !Exposed(profile, readOnly, b) == !Entitled(profile, readOnly, b)
    ensures (ask <==> Asks(profile, b)) && (mutates <==> Changes(b))
    ensures PermissionTool(ask, mutates, b.tool.value.native) == Guard(profile, b)
  {
    denied, ask, mutates := b.operations == [], false, false;
    for i := 0 to |b.operations|
      invariant denied <==> b.operations == [] || exists j :: 0 <= j < i && Denies(profile, readOnly, b.operations[j])
      invariant ask <==> exists j :: 0 <= j < i && DecisionFor(profile, b.operations[j]) == AskUser
      invariant mutates <==> exists j :: 0 <= j < i && b.operations[j] != ReadFile
    {
      var operation := b.operations[i];
      var decision := DecisionFor(profile, operation);
      denied := denied || decision == Deny;
      ask := ask || decision == AskUser;
      mutates := mutates || operation != ReadFile;
      denied := denied || (readOnly && operation != ReadFile);
    }
    ExposedExactly(profile, readOnly, b);
  }

  lemma RegistryUnchanged(profile: Profile, readOnly: bool, front: seq<Binding>, b: Binding, registry: Registry)
    requires RegistryOf(profile, readOnly, front, registry) && !Exposed(profile, readOnly, b)
    ensures RegistryOf(profile, readOnly, front + [b], registry)
  {
    var all := front + [b];
    forall name | name in registry
      ensures exists i :: 0 <= i < |all| && Exposed(profile, readOnly, all[i]) && all[i].tool.value.name == name
    {
      var i :| 0 <= i < |front| && Exposed(profile, readOnly, front[i]) && front[i].tool.value.name == name;
      assert all[i] == front[i];
    }
  }

  lemma RegistryGrows(profile: Profile, readOnly: bool, front: seq<Binding>, b: Binding, registry: Registry)
    requires RegistryOf(profile, readOnly, front, registry) && Exposed(profile, readOnly, b)
    requires b.tool.value.name !in registry
    ensures RegistryOf(profile, readOnly, front + [b], registry[b.tool.value.name := Guard(profile, b)])
  {
    var all, after := front + [b], registry[b.tool.value.name := Guard(profile, b)];
    forall name | name in after
      ensures exists i :: 0 <= i < |all| && Exposed(profile, readOnly, all[i]) && all[i].tool.value.name == name
    {
      if name == b.tool.value.name {
        assert all[|front|] == b;
      } else {
        var i :| 0 <= i < |front| && Exposed(profile, readOnly, front[i]) && front[i].tool.value.name == name;
        assert all[i] == front[i];
      }
    }
  }

  /** Builds the registry of a run; none when the bindings themselves are unusable. */
  method BuildRegistry(profile: Profile, readOnly: bool, bindings: seq<Binding>) returns (r: Option<Registry>)
    ensures r.Some? <==> ValidBindings(bindings)
    ensures r.Some? ==> RegistryOf(profile, readOnly, bindings, r.value)
    ensures r.Some? ==> RegistersEntitled(profile, readOnly, bindings, r.value)
  {
    hide RegistersEntitled;
    var registry: Registry := map[];
    var names: set<string> := {};
    for n := 0 to |bindings|
      invariant ValidBindings(bindings[..n])
      invariant forall name :: name in names <==>
                  exists i :: 0 <= i < n && bindings[i].tool.Some? && bindings[i].tool.value.name == name
      invariant RegistryOf(profile, readOnly, bindings[..n], registry)
    {
      var b := bindings[n];
      if b.tool.None? || b.tool.value.name == "" || b.tool.value.name in names {
        return None;
      }
      var name := b.tool.value.name;
      names := names + {name};
      ghost var front := bindings[..n];
      assert bindings[..n + 1] == front + [b];
      assert name !in registry;
      if name !in profile.allowedTools {
        RegistryUnchanged(profile, readOnly, front, b, registry);
        continue;
      }
      var denied, ask, mutates := Inspect(profile, readOnly, b);
      if denied {
        RegistryUnchanged(profile, readOnly, front, b, registry);
      } else {
        RegistryGrows(profile, readOnly, front, b, registry);
        registry := registry[name := PermissionTool(ask, mutates, b.tool.value.native)];
      }
    }
    assert bindings[..|bindings|] == bindings;
    RegistryExactly(profile, readOnly, bindings, registry);
    r := Some(registry);
  }

  /** The binding of the tool allows the effect: name, operations, and approval where one asks. */
  ghost predicate PermittedAs(env: Env, profile: Profile, readOnly: bool, b: Binding, log: seq<Event>, at: nat)
    requires at < |log| && log[at].ToolEffect? && b.tool.Some?
  {
    && log[at].name in profile.allowedTools && b.operations != []
    && (forall k :: 0 <= k < |b.operations| ==> ConfiguredFor(profile, readOnly, b.operations[k]))
    && at >= 1 && log[at - 1] == CancelRead(false) && !env.cancelled(log[..at - 1])
    && (b.tool.value.native || Asks(profile, b) ==>
          && at >= 2 && log[at - 2].Confirm? && log[at - 2].approved
          && log[at - 2].request.name == log[at].name && log[at - 2].request.arguments == log[at].arguments
          && (log[at - 2].request.changesState <==> Changes(b)))
  }

  /** The tool effect at this point of a log is one the profile, the task and the bindings permit. */
  ghost predicate Permitted(env: Env, profile: Profile, readOnly: bool, bindings: seq<Binding>, log: seq<Event>,
                            at: nat)
    requires at < |log| && log[at].ToolEffect?
  {
    exists i :: 0 <= i < |bindings| && bindings[i].tool.Some? && bindings[i].tool.value.name == log[at].name
      && PermittedAs(env, profile, readOnly, bindings[i], log, at)
  }

  /** Permission soundness of a whole run, in terms of the profile, the task and the bindings. */
  lemma EffectsArePermitted(env: Env, profile: Profile, readOnly: bool, bindings: seq<Binding>,
                            registry: Registry, log: seq<Event>, at: nat)
    requires RegistryOf(profile, readOnly, bindings, registry) && ValidBindings(bindings)
    requires Sound(env, registry, log) && at < |log| && log[at].ToolEffect?
    ensures Permitted(env, profile, readOnly, bindings, log, at)
  {
    hide ValidBindings, Sound;
    EffectsAreApproved(env, registry, log, at);
    var i :| 0 <= i < |bindings| && Exposed(profile, readOnly, bindings[i])
             && bindings[i].tool.value.name == log[at].name;
    var b := bindings[i];
    ExposedExactly(profile, readOnly, b);
    assert PermittedAs(env, profile, readOnly, b, log, at);
  }
}
