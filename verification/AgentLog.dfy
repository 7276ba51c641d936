/**
 * What an agent run does to the outside world, as a log, and the outside world as arbitrary
 * reactions to the log so far: cancel flag, confirmations, tools and model turns.
 */
module AgentLog {
  import opened Options
  import opened JsonValues
  import opened StreamDeltas
  import opened HttpRetry

  datatype Request = Request(name: string, arguments: Json, changesState: bool)

  datatype Event =
    | CancelRead(seen: bool)
    | ModelCall
    | Confirm(request: Request, approved: bool)
    | ConfirmThrew(request: Request)
    | Unattended(request: Request)
    | ToolEffect(name: string, arguments: Json)
    | ToolThrew(name: string)

  datatype Verdict = Approve | Decline | Throw

  /** A tool run: the confirmations the tool asks for itself, then its result or an exception. */
  datatype ToolRun = ToolRun(confirms: seq<Request>, throws: bool, result: Json)

  datatype ModelNet = ModelNet(attempts: nat -> Attempt, read: Reader, readArguments: string -> Option<Json>)

  datatype Env = Env(cancelled: seq<Event> -> bool,
                     confirm: Option<(seq<Event>, Request) -> Verdict>,
                     tool: (seq<Event>, string, Json) -> ToolRun,
                     model: seq<Event> -> ModelNet)

  /** Once raised, the cancel flag of a run stays raised. */
  ghost predicate Monotone(env: Env) {
    forall p, q :: p <= q && env.cancelled(p) ==> env.cancelled(q)
  }

  /** The permission adapter around a tool. */
  datatype PermissionTool = PermissionTool(ask: bool, mutates: bool, native: bool) {
    predicate RequiresConfirmation() {
      ask || native
    }
  }
  type Registry = map<string, PermissionTool>

  predicate IsCall(e: Event) {
    e.ModelCall? || e.ToolEffect?
  }

  /** May this event come next? */
  ghost predicate Allowed(env: Env, tools: Registry, log: seq<Event>, e: Event) {
    && (e.CancelRead? ==> e.seen == env.cancelled(log))
    && (IsCall(e) ==> log != [] && log[|log| - 1] == CancelRead(false))
    && (e.ToolEffect? ==> e.name in tools && (tools[e.name].RequiresConfirmation() ==>
          |log| >= 2 && log[|log| - 2] == Confirm(Request(e.name, e.arguments, tools[e.name].mutates), true)))
    && (e.Confirm? || e.ConfirmThrew? ==> env.confirm.Some?)
    && (e.Unattended? ==> env.confirm.None?)
  }

  /** Every event was allowed when it happened. */
  ghost predicate Sound(env: Env, tools: Registry, log: seq<Event>) {
    forall i :: 0 <= i < |log| ==> Allowed(env, tools, log[..i], log[i])
  }

  lemma SoundMore(env: Env, tools: Registry, log: seq<Event>, e: Event)
    requires Sound(env, tools, log) && Allowed(env, tools, log, e)
    ensures Sound(env, tools, log + [e])
  {
    var more := log + [e];
    forall i | 0 <= i < |more| ensures Allowed(env, tools, more[..i], more[i]) {
      assert more[..i] == log[..i];
      assert i == |log| ==> log[..i] == log;
    }
  }

  /**
   * A tool takes effect only if it is registered; if it needs approval, then right after an
   * approving confirmation of the same name and arguments and one more look at the cancel flag.
   */
  lemma EffectsAreApproved(env: Env, tools: Registry, log: seq<Event>, i: nat)
    requires Sound(env, tools, log) && i < |log| && log[i].ToolEffect?
    ensures log[i].name in tools
    ensures i >= 1 && log[i - 1] == CancelRead(false) && !env.cancelled(log[..i - 1])
    ensures tools[log[i].name].RequiresConfirmation() ==>
              i >= 2 && log[i - 2] == Confirm(Request(log[i].name, log[i].arguments, tools[log[i].name].mutates), true)
  {
    assert Allowed(env, tools, log[..i], log[i]);
    assert Allowed(env, tools, log[..i - 1], log[i - 1]);
  }

  /** At most one tool or model call starts with the cancel flag already raised: the last one. */
  lemma OneCallAfterCancel(env: Env, tools: Registry, log: seq<Event>, i: nat, j: nat)
    requires Sound(env, tools, log) && Monotone(env)
    requires i < j < |log| && (log[i].ModelCall? || log[i].ToolEffect?) && (log[j].ModelCall? || log[j].ToolEffect?)
    ensures !env.cancelled(log[..i])
  {
    assert Allowed(env, tools, log[..j], log[j]);
    assert Allowed(env, tools, log[..j - 1], log[j - 1]);
    assert log[..j][|log[..j]| - 1] == log[j - 1];
    assert log[..i] <= log[..j - 1];
  }

  /** The cancel flag was seen raised. */
  ghost predicate SawCancel(log: seq<Event>) {
    exists i :: 0 <= i < |log| && log[i] == CancelRead(true)
  }

  lemma SawCancelStays(log: seq<Event>, more: seq<Event>)
    requires SawCancel(log) && log <= more
    ensures SawCancel(more)
  {
    var i :| 0 <= i < |log| && log[i] == CancelRead(true);
    assert more[i] == log[i];
  }

  /** An exception left a tool or the confirmation handler. */
  ghost predicate Broke(log: seq<Event>) {
    exists i :: 0 <= i < |log| && (log[i].ConfirmThrew? || log[i].ToolThrew?)
  }

  /** Somebody who was asked declined, or nobody could be asked. */
  predicate Refusal(e: Event) {
    e.Unattended? || (e.Confirm? && !e.approved)
  }

  function Failure(message: string): Json {
    Obj(map["error" := Str(message)])
  }

  /**
   * Between a and b a tool call was answered: with what the tool returned when it took effect, or
   * with a failure for the cancellation or the refusal that came last.
   */
  ghost predicate Answered(env: Env, log: seq<Event>, a: nat, b: nat, name: string, arguments: Json, result: Json) {
    && a < b <= |log|
    && ((exists i :: a <= i < b && log[i] == ToolEffect(name, arguments)
                                  && result == env.tool(log[..i], name, arguments).result)
        || (log[b - 1] == CancelRead(true) && result == Obj(map["error" := Str("Request cancelled.")]))
        || (Refusal(log[b - 1]) && log[b - 1].request.name == name && log[b - 1].request.arguments == arguments
            && result == Obj(map["error" := Str("Tool permission was not approved.")])))
  }

  lemma AnsweredStays(env: Env, log: seq<Event>, more: seq<Event>, a: nat, b: nat, name: string, arguments: Json,
                      result: Json)
    requires Answered(env, log, a, b, name, arguments, result) && log <= more
    ensures Answered(env, more, a, b, name, arguments, result)
  {
    assert forall i :: 0 <= i < |log| ==> more[i] == log[i] && more[..i] == log[..i];
  }

  lemma AnsweredEarlier(env: Env, log: seq<Event>, early: nat, a: nat, b: nat, name: string, arguments: Json,
                        result: Json)
    requires Answered(env, log, a, b, name, arguments, result) && early <= a
    ensures Answered(env, log, early, b, name, arguments, result)
  {
  }

  // ---- counting ----

  function Calls(log: seq<Event>): nat {
    if log == [] then 0 else Calls(log[..|log| - 1]) + if log[|log| - 1].ModelCall? then 1 else 0
  }

  lemma CallsMore(log: seq<Event>, e: Event)
    ensures Calls(log + [e]) == Calls(log) + if e.ModelCall? then 1 else 0
  {
    assert (log + [e])[..|log|] == log;
  }
}
