/** The running side of the log: reading the flag, asking for approval, and running a tool. */
module AgentHosting {
  import opened Options
  import opened JsonValues
  import opened AgentLog

  /** The result of running a tool through its permission adapter. */
  datatype ToolOutcome = Returned(result: Json) | Threw

  /** The confirmation wrapper and its outcome flags, the cancel flag, and the tools of a run. */
  class Host {
    const env: Env
    const tools: Registry
    var log: seq<Event>
    var needsConfirmation: bool
    var declined: bool

    ghost predicate Valid()
      reads this
    {
      && Sound(env, tools, log)
      && (needsConfirmation <==> exists i :: 0 <= i < |log| && log[i].Unattended?)
      && (declined <==> exists i :: 0 <= i < |log| && log[i].Confirm? && !log[i].approved)
    }

    constructor (env: Env, tools: Registry)
      ensures Valid() && this.env == env && this.tools == tools && log == []
    {
      this.env, this.tools := env, tools;
      log, needsConfirmation, declined := [], false, false;
    }

    /** One more event, with the flags it sets. */
    method Record(e: Event)
      requires Valid() && Allowed(env, tools, log, e)
      modifies this
      ensures Valid() && log == old(log) + [e]
      ensures Calls(log) == Calls(old(log)) + if e.ModelCall? then 1 else 0
    {
      SoundMore(env, tools, log, e);
      CallsMore(log, e);
      assert (log + [e])[|log|] == e;
      assert forall i :: 0 <= i < |log| ==> (log + [e])[i] == log[i];
      needsConfirmation := needsConfirmation || e.Unattended?;
      declined := declined || (e.Confirm? && !e.approved);
      log := log + [e];
    }

    method ReadCancel() returns (seen: bool)
      requires Valid()
      modifies this
      ensures Valid() && log == old(log) + [CancelRead(seen)] && Calls(log) == Calls(old(log))
      ensures seen ==> SawCancel(log)
    {
      seen := env.cancelled(log);
      Record(CancelRead(seen));
      assert log[|log| - 1] == CancelRead(seen);
    }

    /** The handler the session passes on: a missing handler or a refusal is remembered. */
    method Ask(request: Request) returns (verdict: Verdict)
      requires Valid()
      modifies this
      ensures Valid() && Calls(log) == Calls(old(log))
      ensures log == old(log) + [match verdict
                                 case Approve => Confirm(request, true)
                                 case Decline =>
                                   if env.confirm.Some? then Confirm(request, false) else Unattended(request)
                                 case Throw => ConfirmThrew(request)]
    {
      if env.confirm.None? {
        Record(Unattended(request));
        return Decline;
      }
      verdict := env.confirm.value(log, request);
      match verdict {
        case Throw => Record(ConfirmThrew(request));
        case Approve => Record(Confirm(request, true));
        case Decline => Record(Confirm(request, false));
      }
    }

    /** Asks for the approval a tool needs; none when it is given or not needed. */
    method Approve(name: string, arguments: Json) returns (refused: Option<ToolOutcome>)
      requires Valid() && name in tools
      modifies this
      ensures Valid() && old(log) <= log && Calls(log) == Calls(old(log))
      ensures refused.None? && tools[name].RequiresConfirmation() ==>
                log != [] && log[|log| - 1] == Confirm(Request(name, arguments, tools[name].mutates), true)
      ensures refused.Some? && refused.value.Threw? ==> Broke(log)
      ensures refused.Some? && refused.value.Returned? ==>
                && old(log) < log && Refusal(log[|log| - 1])
                && log[|log| - 1].request == Request(name, arguments, tools[name].mutates)
                && refused.value.result == Failure("Tool permission was not approved.")
    {
      hide Calls, Sound, Valid;
      refused := None;
      if tools[name].RequiresConfirmation() {
        var verdict := Ask(Request(name, arguments, tools[name].mutates));
        assert log[..|log| - 1] == old(log);
        if verdict == Throw {
          assert log[|log| - 1].ConfirmThrew?;
          return Some(Threw);
        }
        if verdict == Decline {
          return Some(Returned(Failure("Tool permission was not approved.")));
        }
      }
    }

    /** The tool itself, with whatever further confirmations it asks for. */
    method RunTool(name: string, arguments: Json) returns (outcome: ToolOutcome)
      requires Valid() && Allowed(env, tools, log, ToolEffect(name, arguments))
      modifies this
      ensures Valid() && old(log) + [ToolEffect(name, arguments)] <= log && Calls(log) == Calls(old(log))
      ensures outcome.Returned? ==> outcome.result == env.tool(old(log), name, arguments).result
      ensures outcome.Threw? ==> Broke(log)
    {
      hide Calls, Sound, Valid;
      var run := env.tool(log, name, arguments);
      Record(ToolEffect(name, arguments));
      for i := 0 to |run.confirms|
        invariant Valid() && old(log) + [ToolEffect(name, arguments)] <= log && Calls(log) == Calls(old(log))
      {
        var _ := Ask(run.confirms[i]);
      }
      if run.throws {
        Record(ToolThrew(name));
        assert log[|log| - 1].ToolThrew?;
        return Threw;
      }
      outcome := Returned(run.result);
    }

    /** The permission adapter: cancel check, approval, cancel check, and only then the tool. */
    method ExecuteTool(name: string, arguments: Json) returns (outcome: ToolOutcome)
      requires Valid() && name in tools
      modifies this
      ensures Valid() && old(log) <= log && Calls(log) == Calls(old(log))
      ensures outcome.Returned? ==> Answered(env, log, |old(log)|, |log|, name, arguments, outcome.result)
      ensures outcome.Threw? ==> Broke(log)
    {
      hide Calls, Sound, Valid, SawCancel, Broke, PermissionTool.RequiresConfirmation;
      var tool := tools[name];
      var seen := ReadCancel();
      if seen {
        return Returned(Failure("Request cancelled."));
      }
      var refused := Approve(name, arguments);
      if refused.Some? {
        return refused.value;
      }
      ghost var asked := log;
      seen := ReadCancel();
      if seen {
        return Returned(Failure("Request cancelled."));
      }
      assert log[|log| - 1] == CancelRead(false);
      assert tool.RequiresConfirmation() ==> log[|log| - 2] == asked[|asked| - 1];
      ghost var ready := log;
      outcome := RunTool(name, arguments);
      assert log[|ready|] == ToolEffect(name, arguments) && log[..|ready|] == ready;
    }
  }
}
