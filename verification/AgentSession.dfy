/** The bounded model/tool loop of one prompt. */
module AgentSessions {
  import opened Options
  import opened JsonValues
  import opened Backoff
  import opened StreamDeltas
  import opened History
  import opened DeepSeekProviding
  import opened AgentLog
  import opened AgentHosting

  /** The width of the round counter. */
  newtype int32 = x: int | -0x8000_0000 <= x <= 0x7fff_ffff

  datatype PromptResult = Ended(ok: bool, message: string, cancelled: bool) | Thrown

  const CANCELLED := Ended(false, "Request cancelled.", true)

  /**
   * One turn that asked for tools, and the responses that were sent back for it. Call i was served
   * by what happened in the log from `marks[i]` up to `marks[i + 1]`.
   */
  datatype Round = Round(turn: ModelTurn, responses: seq<ToolResponse>, marks: seq<nat>)

  /** One response per call, position by position. */
  ghost predicate Matches(calls: seq<ToolCall>, responses: seq<ToolResponse>) {
    && |responses| == |calls|
    && forall i :: 0 <= i < |calls| ==> responses[i].callId == calls[i].id && responses[i].name == calls[i].name
  }

  /** The call was looked up and answered by its own tool, between these points of the log. */
  ghost predicate Served(env: Env, tools: Registry, log: seq<Event>, from: nat, to: nat, call: ToolCall,
                         response: ToolResponse)
  {
    if call.name in tools
    then Answered(env, log, from, to, call.name, call.arguments, response.result)
    else response.result == Obj(map["error" := Str("Unknown tool requested: " + call.name)])
  }

  /** The marks cut the log into one non-empty piece for each call, in order. */
  ghost predicate Marked(marks: seq<nat>, calls: nat, end: nat) {
    && |marks| == calls + 1 && marks[calls] <= end
    && forall i :: 0 <= i < calls ==> marks[i] < marks[i + 1]
  }

  /** Each call was served in its own piece of the log. */
  ghost predicate AllServed(env: Env, tools: Registry, log: seq<Event>, marks: seq<nat>, calls: seq<ToolCall>,
                            responses: seq<ToolResponse>)
  {
    && |responses| == |calls| && Marked(marks, |calls|, |log|)
    && forall i :: 0 <= i < |calls| ==> Served(env, tools, log, marks[i], marks[i + 1], calls[i], responses[i])
  }

  lemma ServedStays(env: Env, tools: Registry, log: seq<Event>, more: seq<Event>, from: nat, to: nat, call: ToolCall,
                    response: ToolResponse)
    requires Served(env, tools, log, from, to, call, response) && log <= more
    ensures Served(env, tools, more, from, to, call, response)
  {
    if call.name in tools {
      AnsweredStays(env, log, more, from, to, call.name, call.arguments, response.result);
    }
  }

  lemma AllServedStays(env: Env, tools: Registry, log: seq<Event>, more: seq<Event>, marks: seq<nat>,
                       calls: seq<ToolCall>, responses: seq<ToolResponse>)
    requires AllServed(env, tools, log, marks, calls, responses) && log <= more
    ensures AllServed(env, tools, more, marks, calls, responses)
  {
    hide Served;
    forall i | 0 <= i < |calls| ensures Served(env, tools, more, marks[i], marks[i + 1], calls[i], responses[i]) {
      ServedStays(env, tools, log, more, marks[i], marks[i + 1], calls[i], responses[i]);
    }
  }

  lemma NoCallServed(env: Env, tools: Registry, log: seq<Event>)
    ensures AllServed(env, tools, log, [|log|], [], [])
  {
  }

  /** One more call, served in what was added to the log. */
  lemma OneMoreCall(env: Env, tools: Registry, log: seq<Event>, more: seq<Event>, marks: seq<nat>,
                    calls: seq<ToolCall>, responses: seq<ToolResponse>, call: ToolCall, response: ToolResponse)
    requires AllServed(env, tools, log, marks, calls, responses) && log < more
    requires marks[|calls|] == |log| && Served(env, tools, more, |log|, |more|, call, response)
    ensures AllServed(env, tools, more, marks + [|more|], calls + [call], responses + [response])
  {
    hide Served;
    AllServedStays(env, tools, log, more, marks, calls, responses);
    var marks', calls', responses' := marks + [|more|], calls + [call], responses + [response];
    forall i | 0 <= i < |calls'| ensures Served(env, tools, more, marks'[i], marks'[i + 1], calls'[i], responses'[i]) {
      assert i < |calls| || i == |calls|;
    }
  }

  ghost predicate Precedes(a: seq<nat>, b: seq<nat>) {
    a != [] && b != [] && a[|a| - 1] <= b[0]
  }

  /** The calls of every round were served, the rounds one after the other. */
  ghost predicate RoundsServed(env: Env, tools: Registry, log: seq<Event>, rounds: seq<Round>) {
    && (forall k :: 0 <= k < |rounds| ==>
          AllServed(env, tools, log, rounds[k].marks, rounds[k].turn.toolCalls, rounds[k].responses))
    && forall k :: 0 < k < |rounds| ==> Precedes(rounds[k - 1].marks, rounds[k].marks)
  }

  lemma RoundsServedStays(env: Env, tools: Registry, log: seq<Event>, more: seq<Event>, rounds: seq<Round>)
    requires RoundsServed(env, tools, log, rounds) && log <= more
    ensures RoundsServed(env, tools, more, rounds)
  {
    hide AllServed;
    forall k | 0 <= k < |rounds|
      ensures AllServed(env, tools, more, rounds[k].marks, rounds[k].turn.toolCalls, rounds[k].responses)
    {
      AllServedStays(env, tools, log, more, rounds[k].marks, rounds[k].turn.toolCalls, rounds[k].responses);
    }
  }

  lemma LastMark(env: Env, tools: Registry, log: seq<Event>, round: Round)
    requires AllServed(env, tools, log, round.marks, round.turn.toolCalls, round.responses)
    ensures round.marks != [] && round.marks[|round.marks| - 1] <= |log|
  {
  }

  /** One more round, served after `log` ended. */
  lemma OneMoreServed(env: Env, tools: Registry, log: seq<Event>, more: seq<Event>, rounds: seq<Round>, round: Round)
    requires RoundsServed(env, tools, log, rounds) && log <= more
    requires AllServed(env, tools, more, round.marks, round.turn.toolCalls, round.responses)
    requires round.marks != [] && round.marks[0] == |log|
    ensures RoundsServed(env, tools, more, rounds + [round])
  {
    RoundsServedStays(env, tools, log, more, rounds);
    if rounds != [] {
      assert AllServed(env, tools, log, rounds[|rounds| - 1].marks, rounds[|rounds| - 1].turn.toolCalls,
                       rounds[|rounds| - 1].responses);
      LastMark(env, tools, log, rounds[|rounds| - 1]);
    }
    hide AllServed, Precedes;
    var all := rounds + [round];
    forall k | 0 < k < |all| ensures Precedes(all[k - 1].marks, all[k].marks) {
      assert k < |rounds| || k == |rounds|;
    }
  }

  lemma NothingServed(env: Env, tools: Registry, log: seq<Event>)
    ensures RoundsServed(env, tools, log, [])
  {
  }

  function Max0(n: int32): nat {
    if n > 0 then n as int else 0
  }

  /** Why a prompt that got going ended the way it did. */
  ghost predicate Justified(result: PromptResult, maxToolRounds: int32, rounds: seq<Round>, turn: ModelTurn,
                            log: seq<Event>)
  {
    match result
    case Thrown => Broke(log)
    case Ended(ok, message, cancelled) =>
      if cancelled then !ok && SawCancel(log)
      else if ok then turn.ok && turn.toolCalls == [] && message == turn.text
      else (!turn.ok && message == turn.error) || (turn.ok && turn.toolCalls != [] && |rounds| == Max0(maxToolRounds))
  }

  /** Why a prompt stopped before its last turn: an exception, a cancellation, or a turn that failed. */
  ghost predicate StoppedEarly(result: PromptResult, turn: ModelTurn, log: seq<Event>) {
    match result
    case Thrown => Broke(log)
    case Ended(ok, message, cancelled) =>
      !ok && if cancelled then SawCancel(log) else !turn.ok && message == turn.error
  }

  /** The prompt failed although its last turn was good: the model asked for tools once too often. */
  predicate OutOfRounds(result: PromptResult, turn: ModelTurn) {
    result.Ended? && !result.ok && !result.cancelled && turn.ok
  }

  lemma EarlyStopIsJustified(result: PromptResult, maxToolRounds: int32, rounds: seq<Round>, turn: ModelTurn,
                             log: seq<Event>)
    requires StoppedEarly(result, turn, log)
    ensures Justified(result, maxToolRounds, rounds, turn, log) && !(result.Ended? && result.ok)
    ensures !OutOfRounds(result, turn)
  {
  }

  ghost predicate RoundsMatch(rounds: seq<Round>) {
    forall k :: 0 <= k < |rounds| ==>
      rounds[k].turn.ok && rounds[k].turn.toolCalls != [] && Matches(rounds[k].turn.toolCalls, rounds[k].responses)
  }

  /** The history ends with the message of a successful turn. */
  ghost predicate EndsWithTurn(h: seq<Message>, turn: ModelTurn) {
    && turn.ok && h != []
    && var last := h[|h| - 1];
       && last.Assistant? && last.content == turn.text && |last.calls| == |turn.toolCalls|
       && forall i :: 0 <= i < |last.calls| ==>
            last.calls[i].id == Str(turn.toolCalls[i].id) && last.calls[i].name == Str(turn.toolCalls[i].name)
  }

  /** The last messages carry these responses, with their ids and results, in order. */
  ghost predicate EndsWithReplies(h: seq<Message>, responses: seq<ToolResponse>) {
    && |responses| <= |h|
    && forall k :: |h| - |responses| <= k < |h| ==>
         h[k] == ToolReply(responses[k - (|h| - |responses|)].callId, responses[k - (|h| - |responses|)].result)
  }

  lemma EndsAsContinued(h: seq<Message>, responses: seq<ToolResponse>)
    ensures EndsWithReplies(h + Replies(responses), responses)
  {
  }

  /** Every request of a prompt after the first goes out with all calls of the turn before it answered. */
  ghost predicate RequestsAnswered(sent: seq<seq<Message>>, rounds: seq<Round>) {
    && |sent| <= |rounds| + 1
    && forall k :: 1 <= k < |sent| ==>
         CallsAnswered(sent[k], rounds[k - 1].turn.toolCalls) && EndsWithReplies(sent[k], rounds[k - 1].responses)
  }

  lemma TurnSends(env: TurnEnv, before: seq<Message>, sentBefore: seq<seq<Message>>,
                  turn: ModelTurn, after: seq<Message>, sentAfter: seq<seq<Message>>)
    requires TurnEffect(env, before, sentBefore, turn, after, sentAfter)
    ensures sentAfter == if env.cancelBefore then sentBefore else sentBefore + [before]
    ensures turn.cancelled == (env.cancelBefore || env.cancelAfter)
    ensures turn.ok ==> !turn.cancelled && !env.cancelBefore && EndsWithTurn(after, turn)
  {
    if turn.ok {
      var n: nat :| Completed(env, n, before, after, turn);
      assert after[|after| - 1] == Assistant(turn.text, AnswerOf(env, n).calls);
    }
  }

  lemma AnsweredInOrder(h: seq<Message>, turn: ModelTurn, responses: seq<ToolResponse>)
    requires EndsWithTurn(h, turn) && Matches(turn.toolCalls, responses)
    ensures CallsAnswered(h + Replies(responses), turn.toolCalls)
  {
    var all := h + Replies(responses);
    forall k | |h| <= k < |all| ensures all[k] == ToolReply(turn.toolCalls[k - |h|].id, responses[k - |h|].result) {
      assert all[k] == Replies(responses)[k - |h|];
    }
  }

  /** No tool reply is without its call, neither in the requests since `sent0` nor in the history. */
  ghost predicate Paired(sent0: seq<seq<Message>>, sent: seq<seq<Message>>, h: seq<Message>) {
    && |sent0| <= |sent| && NoOrphans(h)
    && forall k :: |sent0| <= k < |sent| ==> NoOrphans(sent[k])
  }

  lemma TurnKeepsPairs(env: TurnEnv, before: seq<Message>, sentBefore: seq<seq<Message>>,
                       turn: ModelTurn, after: seq<Message>, sentAfter: seq<seq<Message>>, sent0: seq<seq<Message>>)
    requires TurnEffect(env, before, sentBefore, turn, after, sentAfter)
    ensures Paired(sent0, sentBefore, before) ==> Paired(sent0, sentAfter, after)
  {
    hide NoOrphans, AnswerOf;
    if Paired(sent0, sentBefore, before) && after != before {
      MessageKeepsPairs(before, after[|after| - 1]);
      assert after == before + [after[|after| - 1]];
    }
  }

  /** The question of a prompt, and the answers to all calls of a turn, leave no reply alone. */
  lemma QuestionKeepsPairs(h: seq<Message>, systemInstruction: string, text: string)
    ensures NoOrphans(h) ==> NoOrphans(Asked(h, systemInstruction, text))
  {
    hide NoOrphans;
    if NoOrphans(h) {
      MessageKeepsPairs(h, System(systemInstruction));
      MessageKeepsPairs(h + [System(systemInstruction)], User(text));
      MessageKeepsPairs(h, User(text));
      assert h == [] ==> h + [System(systemInstruction)] == [System(systemInstruction)];
    }
  }

  lemma PairedAtAnswers(sent0: seq<seq<Message>>, sent: seq<seq<Message>>, h: seq<Message>, turn: ModelTurn,
                        responses: seq<ToolResponse>)
    requires EndsWithTurn(h, turn) && Matches(turn.toolCalls, responses)
    ensures Paired(sent0, sent, h) ==> Paired(sent0, sent, h + Replies(responses))
  {
    hide NoOrphans;
    if NoOrphans(h) { RepliesKeepPairs(h, Replies(responses)); }
  }

  /** The history has no lonely reply, and trimming it makes none. */
  ghost predicate PairedAfterTrim(h: seq<Message>, limit: nat)
    requires KeepFrom(h) <= limit
  {
    NoOrphans(h) && NoOrphans(Trimmed(h, limit))
  }

  lemma PairedAtFirst(sent: seq<seq<Message>>, h: seq<Message>, limit: nat)
    ensures KeepFrom(h) <= limit && PairedAfterTrim(h, limit) ==> Paired(sent, sent, h)
  {
  }

  lemma PairedAtQuestion(sent: seq<seq<Message>>, h: seq<Message>, limit: nat, systemInstruction: string, text: string)
    requires KeepFrom(h) <= limit
    ensures PairedAfterTrim(h, limit) ==>
              && Paired(sent, sent, Trimmed(h, limit))
              && Paired(sent, sent, Asked(Trimmed(h, limit), systemInstruction, text))
  {
    hide NoOrphans;
    QuestionKeepsPairs(Trimmed(h, limit), systemInstruction, text);
  }

  /** The requests since `sent0`, one per model call, and how the rounds were answered. */
  ghost predicate Conversed(sent0: seq<seq<Message>>, sent: seq<seq<Message>>, rounds: seq<Round>, modelCalls: int) {
    && sent0 <= sent && modelCalls == |sent| - |sent0|
    && RequestsAnswered(sent[|sent0|..], rounds) && RoundsMatch(rounds)
  }

  lemma FirstRequest(sent0: seq<seq<Message>>, request: seq<Message>)
    ensures Conversed(sent0, sent0, [], 0) && Conversed(sent0, sent0 + [request], [], 1)
  {
  }

  lemma OneMoreRound(sent0: seq<seq<Message>>, sent: seq<seq<Message>>, rounds: seq<Round>,
                     request: seq<Message>, round: Round)
    requires Conversed(sent0, sent, rounds, |rounds| + 1)
    requires round.turn.ok && round.turn.toolCalls != [] && Matches(round.turn.toolCalls, round.responses)
    requires CallsAnswered(request, round.turn.toolCalls) && EndsWithReplies(request, round.responses)
    ensures Conversed(sent0, sent + [request], rounds + [round], |rounds| + 2)
    ensures Conversed(sent0, sent, rounds + [round], |rounds| + 1)
  {
    assert (sent + [request])[|sent0|..] == sent[|sent0|..] + [request];
  }

  /** The requests of a prompt are at most one more than its rounds. */
  lemma BudgetKept(sent0: seq<seq<Message>>, sent: seq<seq<Message>>, rounds: seq<Round>, modelCalls: int)
    requires Conversed(sent0, sent, rounds, modelCalls)
    ensures modelCalls <= |rounds| + 1
  {
  }

  /** The first request of a prompt: the system instruction on an empty history, and the question last. */
  ghost predicate Opened(h: seq<Message>, systemInstruction: string, text: string,
                         sent0: seq<seq<Message>>, sent: seq<seq<Message>>)
  {
    && sent0 <= sent
    && (|sent| > |sent0| ==>
          sent[|sent0|] == (if h != [] then h else if systemInstruction == "" then [] else [System(systemInstruction)])
                           + [User(text)])
  }

  /** A prompt succeeds with the cancel flag just seen down, and its last turn at the end of the history. */
  ghost predicate Concluded(host: Host, provider: DeepSeekProvider, turn: ModelTurn)
    reads host, provider
  {
    && host.log != [] && host.log[|host.log| - 1] == CancelRead(false)
    && EndsWithTurn(provider.messages, turn)
  }

  lemma BudgetSpent(result: PromptResult, maxToolRounds: int32, rounds: seq<Round>, turn: ModelTurn, log: seq<Event>)
    requires result.Ended? && !result.ok && !result.cancelled && turn.ok && turn.toolCalls != []
    requires |rounds| <= Max0(maxToolRounds) && maxToolRounds as int <= |rounds|
    ensures Justified(result, maxToolRounds, rounds, turn, log)
    ensures |rounds| == if maxToolRounds > 0 then maxToolRounds as int else 0
  {
  }

  lemma LastTurnAnswers(maxToolRounds: int32, rounds: seq<Round>, turn: ModelTurn, host: Host,
                        provider: DeepSeekProvider)
    requires EndsWithTurn(provider.messages, turn) && turn.toolCalls == []
    requires host.log != [] && host.log[|host.log| - 1] == CancelRead(false)
    ensures Justified(Ended(true, turn.text, false), maxToolRounds, rounds, turn, host.log)
    ensures Concluded(host, provider, turn) && !OutOfRounds(Ended(true, turn.text, false), turn)
  {
  }

  lemma RoundsLeft(maxToolRounds: int32, rounds: seq<Round>)
    ensures |rounds| < maxToolRounds as int ==> |rounds| + 1 <= Max0(maxToolRounds)
    ensures maxToolRounds < 0x7fff_ffff ==> Max0(maxToolRounds) < 0x7fff_ffff
  {
  }

  lemma EndedTurnIsOk(h: seq<Message>, turn: ModelTurn)
    requires EndsWithTurn(h, turn)
    ensures turn.ok
  {
  }

  ghost predicate SawDownAt(log: seq<Event>, i: nat) {
    i < |log| && log[i] == CancelRead(false)
  }

  /** After an answer the provider and then the session have seen the flag down. */
  ghost predicate SawDownTwice(log: seq<Event>) {
    |log| >= 2 && log[|log| - 2] == CancelRead(false) && log[|log| - 1] == CancelRead(false)
  }

  /** Why a prompt stopped before its first answer: a cancellation, or a turn that failed. */
  ghost predicate StoppedFirst(result: PromptResult, turn: ModelTurn, log: seq<Event>) {
    && result.Ended? && !result.ok
    && if result.cancelled then SawCancel(log) else !turn.ok && result.message == turn.error
  }

  lemma LookedTwice(log: seq<Event>, seen: bool)
    requires log != [] && log[|log| - 1] == CancelRead(false)
    ensures !seen ==> SawDownTwice(log + [CancelRead(seen)])
  {
  }

  lemma SawDownLast(log: seq<Event>)
    requires SawDownTwice(log)
    ensures log != [] && log[|log| - 1] == CancelRead(false)
  {
  }

  class AgentSession {
    var provider: DeepSeekProvider?
    var apiKey: string
    var activeModel: string
    var systemInstruction: string
    var maxToolRounds: int32
    var maxHistoryEntries: nat

    constructor (provider: DeepSeekProvider?, apiKey: string, model: string, instruction: string,
                 maxToolRounds: int32, maxHistoryEntries: nat)
      ensures this.provider == provider && this.apiKey == apiKey && activeModel == model
      ensures systemInstruction == instruction && this.maxToolRounds == maxToolRounds
      ensures this.maxHistoryEntries == maxHistoryEntries
    {
      this.provider, this.apiKey, activeModel := provider, apiKey, model;
      systemInstruction, this.maxToolRounds, this.maxHistoryEntries := instruction, maxToolRounds, maxHistoryEntries;
    }

    /**
     * The cancel reads around one network exchange. The exchange reacts to the log at its start,
     * so the read that follows it can be taken here.
     */
    method Exchange(host: Host) returns (turnEnv: TurnEnv)
      requires host.Valid()
      modifies host
      ensures host.Valid() && old(host.log) <= host.log
      ensures Calls(host.log) == Calls(old(host.log)) + if turnEnv.cancelBefore then 0 else 1
      ensures turnEnv.cancelBefore || turnEnv.cancelAfter ==> SawCancel(host.log)
      ensures host.log != [] && host.log[|host.log| - 1] == CancelRead(turnEnv.cancelBefore || turnEnv.cancelAfter)
    {
      var before := host.ReadCancel();
      var net := host.env.model(host.log);
      if before {
        return TurnEnv(true, net.attempts, false, net.read, net.readArguments);
      }
      host.Record(ModelCall);
      var after := host.ReadCancel();
      turnEnv := TurnEnv(false, net.attempts, after, net.read, net.readArguments);
    }

    /** One call: cancel check, then the tool with that name, or a failure if there is none. */
    method RunCall(host: Host, call: ToolCall) returns (stop: Option<PromptResult>, response: ToolResponse)
      requires host.Valid()
      modifies host
      ensures host.Valid() && old(host.log) < host.log && Calls(host.log) == Calls(old(host.log))
      ensures stop.None? ==> response.callId == call.id && response.name == call.name
                             && Served(host.env, host.tools, host.log, |old(host.log)|, |host.log|, call, response)
      ensures stop.Some? ==>
                if stop.value.Thrown? then Broke(host.log) else stop.value == CANCELLED && SawCancel(host.log)
    {
      hide Calls, SawCancel, Broke, Host.Valid, Answered;
      response := ToolResponse(call.id, call.name, Failure("Unknown tool requested: " + call.name));
      stop := None;
      var seen := host.ReadCancel();
      if seen {
        stop := Some(CANCELLED);
        return;
      }
      ghost var start := |host.log|;
      if call.name in host.tools {
        var outcome := host.ExecuteTool(call.name, call.arguments);
        if outcome.Threw? {
          stop := Some(Thrown);
          return;
        }
        response := ToolResponse(call.id, call.name, outcome.result);
        AnsweredEarlier(host.env, host.log, start - 1, start, |host.log|, call.name, call.arguments, outcome.result);
      }
    }

    /** One response for each call of a turn, or the reason to stop. */
    method RunTools(host: Host, calls: seq<ToolCall>)
      returns (stop: Option<PromptResult>, responses: seq<ToolResponse>, marks: seq<nat>)
      requires host.Valid()
      modifies host
      ensures host.Valid() && old(host.log) <= host.log && Calls(host.log) == Calls(old(host.log))
      ensures stop.None? ==> Matches(calls, responses)
      ensures stop.None? ==> AllServed(host.env, host.tools, host.log, marks, calls, responses)
      ensures stop.None? ==> |marks| == |calls| + 1 && marks[0] == |old(host.log)| && marks[|calls|] == |host.log|
      ensures stop.Some? ==>
                if stop.value.Thrown? then Broke(host.log) else stop.value == CANCELLED && SawCancel(host.log)
    {
      hide Calls, Served, AllServed, SawCancel, Broke, Host.Valid;
      responses, marks := [], [|host.log|];
      NoCallServed(host.env, host.tools, host.log);
      for i := 0 to |calls|
        invariant host.Valid() && old(host.log) <= host.log && Calls(host.log) == Calls(old(host.log))
        invariant Matches(calls[..i], responses)
        invariant |marks| == i + 1 && marks[i] == |host.log| && marks[0] == |old(host.log)|
        invariant AllServed(host.env, host.tools, host.log, marks, calls[..i], responses)
      {
        ghost var before := host.log;
        var failure, response := RunCall(host, calls[i]);
        if failure.Some? {
          return failure, responses, marks;
        }
        OneMoreCall(host.env, host.tools, before, host.log, marks, calls[..i], responses, calls[i], response);
        assert calls[..i + 1] == calls[..i] + [calls[i]];
        responses := responses + [response];
        marks := marks + [|host.log|];
      }
      assert calls[..|calls|] == calls;
      stop := None;
    }

    /** The opening turn on the trimmed history. */
    method AskFirst(text: string, host: Host) returns (stop: Option<PromptResult>, turn: ModelTurn)
      requires host.Valid() && provider != null && provider.Valid()
      modifies host, provider
      ensures host.Valid() && old(host.log) <= host.log && provider.Valid()
      ensures Conversed(old(provider.sent), provider.sent, [], Calls(host.log) - Calls(old(host.log)))
      ensures stop.None? ==> EndsWithTurn(provider.messages, turn) && Calls(host.log) == Calls(old(host.log)) + 1
      ensures stop.None? ==> SawDownTwice(host.log)
      ensures stop.None? ==> |provider.sent| == |old(provider.sent)| + 1
      ensures stop.Some? ==> StoppedFirst(stop.value, turn, host.log)
      ensures Paired(old(provider.sent), old(provider.sent), Asked(old(provider.messages), systemInstruction, text)) ==>
                Paired(old(provider.sent), provider.sent, provider.messages)
      ensures Opened(old(provider.messages), systemInstruction, text, old(provider.sent), provider.sent)
    {
      hide Calls, Conversed, EndsWithTurn, TurnEffect, Asked, SawCancel, Paired, SpeaksFor, SawDownTwice;
      hide Host.Valid, DeepSeekProvider.Valid;
      stop := None;
      var turnEnv := Exchange(host);
      ghost var asked := Asked(provider.messages, systemInstruction, text);
      turn := provider.StartTurn(systemInstruction, text, turnEnv);
      TurnSends(turnEnv, asked, old(provider.sent), turn, provider.messages, provider.sent);
      FirstRequest(old(provider.sent), asked);
      TurnKeepsPairs(turnEnv, asked, old(provider.sent), turn, provider.messages, provider.sent, old(provider.sent));
      ghost var during := host.log;
      if !turnEnv.cancelBefore && !turnEnv.cancelAfter { LookedTwice(during, false); }
      var seen := host.ReadCancel();
      if seen {
        stop := Some(CANCELLED);
        return;
      }
      if turn.cancelled { SawCancelStays(during, host.log); }
      if !turn.ok {
        stop := Some(Ended(false, turn.error, turn.cancelled));
      }
    }

    /** Up to the first answer of the model: cancel check, trimming, and the opening turn. */
    method FirstTurn(text: string, host: Host) returns (stop: Option<PromptResult>, turn: ModelTurn)
      requires host.Valid() && provider != null && provider.Valid() && KeepFrom(provider.messages) <= maxHistoryEntries
      modifies host, provider
      ensures host.Valid() && old(host.log) <= host.log && provider.Valid()
      ensures Conversed(old(provider.sent), provider.sent, [], Calls(host.log) - Calls(old(host.log)))
      ensures stop.None? ==> EndsWithTurn(provider.messages, turn) && Calls(host.log) == Calls(old(host.log)) + 1
      ensures stop.None? ==> SawDownTwice(host.log)
      ensures stop.None? ==> |provider.sent| == |old(provider.sent)| + 1
      ensures stop.Some? ==> StoppedFirst(stop.value, turn, host.log)
      ensures PairedAfterTrim(old(provider.messages), maxHistoryEntries) ==>
                Paired(old(provider.sent), provider.sent, provider.messages)
      ensures Opened(Trimmed(old(provider.messages), maxHistoryEntries), systemInstruction, text,
                     old(provider.sent), provider.sent)
      ensures |old(host.log)| < |host.log| && host.log[|old(host.log)|].CancelRead?
      ensures host.log[|old(host.log)|].seen ==>
                stop.Some? && provider.messages == old(provider.messages) && provider.sent == old(provider.sent)
    {
      hide Calls, Conversed, EndsWithTurn, SawCancel, Paired, PairedAfterTrim, Trimmed, KeepFrom, SawDownTwice;
      hide Host.Valid, DeepSeekProvider.Valid;
      FirstRequest(provider.sent, []);
      PairedAtFirst(provider.sent, provider.messages, maxHistoryEntries);
      turn, stop := FailedTurn("", false), None;
      var seen := host.ReadCancel();
      if seen {
        stop := Some(CANCELLED);
        return;
      }
      provider.TrimHistory(maxHistoryEntries);
      PairedAtQuestion(old(provider.sent), old(provider.messages), maxHistoryEntries, systemInstruction, text);
      stop, turn := AskFirst(text, host);
    }

    /** Sends the responses of a round, and receives the next turn. */
    method NextTurn(host: Host, round: Round, ghost sent0: seq<seq<Message>>, ghost rounds: seq<Round>)
      returns (stop: Option<PromptResult>, next: ModelTurn)
      requires host.Valid() && provider != null && provider.Valid()
      requires round.turn.toolCalls != [] && round.turn.ok && EndsWithTurn(provider.messages, round.turn)
      requires Matches(round.turn.toolCalls, round.responses)
      requires Conversed(sent0, provider.sent, rounds, |rounds| + 1)
      modifies host, provider
      ensures host.Valid() && old(host.log) <= host.log && provider.Valid() && old(provider.sent) <= provider.sent
      ensures Conversed(sent0, provider.sent, rounds + [round], |rounds| + 1 + Calls(host.log) - Calls(old(host.log)))
      ensures stop.None? ==> EndsWithTurn(provider.messages, next) && Calls(host.log) == Calls(old(host.log)) + 1
      ensures stop.None? ==> SawDownTwice(host.log)
      ensures stop.Some? ==> StoppedEarly(stop.value, next, host.log)
      ensures Paired(sent0, old(provider.sent), old(provider.messages)) ==>
                Paired(sent0, provider.sent, provider.messages)
    {
      hide Calls, Conversed, EndsWithTurn, TurnEffect, CallsAnswered, Matches, Asked, Replies, SawCancel, Broke, Paired;
      hide EndsWithReplies, SpeaksFor, Continues;
      hide Host.Valid, DeepSeekProvider.Valid, SawDownTwice;
      stop := None;
      var turnEnv := Exchange(host);
      ghost var sentBefore, request := provider.sent, provider.messages + Replies(round.responses);
      AnsweredInOrder(provider.messages, round.turn, round.responses);
      EndsAsContinued(provider.messages, round.responses);
      PairedAtAnswers(sent0, sentBefore, provider.messages, round.turn, round.responses);
      OneMoreRound(sent0, sentBefore, rounds, request, round);
      next := provider.ContinueTurn(round.responses, turnEnv);
      TurnSends(turnEnv, request, sentBefore, next, provider.messages, provider.sent);
      TurnKeepsPairs(turnEnv, request, sentBefore, next, provider.messages, provider.sent, sent0);
      ghost var during := host.log;
      if !turnEnv.cancelBefore && !turnEnv.cancelAfter { LookedTwice(during, false); }
      var seen := host.ReadCancel();
      if seen {
        stop := Some(CANCELLED);
        return;
      }
      if next.cancelled { SawCancelStays(during, host.log); }
      if !next.ok {
        stop := Some(Ended(false, next.error, next.cancelled));
      }
    }

    /** One round: run the tools of a turn, and ask for the next turn; `answered` once it is asked for. */
    method OneRound(host: Host, turn: ModelTurn, ghost sent0: seq<seq<Message>>, ghost rounds: seq<Round>)
      returns (stop: Option<PromptResult>, answered: Option<Round>, next: ModelTurn)
      requires host.Valid() && provider != null && provider.Valid()
      requires turn.toolCalls != [] && turn.ok && EndsWithTurn(provider.messages, turn)
      requires Conversed(sent0, provider.sent, rounds, |rounds| + 1)
      modifies host, provider
      ensures host.Valid() && old(host.log) <= host.log && provider.Valid() && old(provider.sent) <= provider.sent
      ensures Conversed(sent0, provider.sent, if answered.Some? then rounds + [answered.value] else rounds,
                        |rounds| + 1 + Calls(host.log) - Calls(old(host.log)))
      ensures stop.None? ==> answered.Some? && EndsWithTurn(provider.messages, next)
      ensures stop.None? ==> Calls(host.log) == Calls(old(host.log)) + 1
      ensures stop.None? ==> SawDownTwice(host.log)
      ensures Paired(sent0, old(provider.sent), old(provider.messages)) ==>
                Paired(sent0, provider.sent, provider.messages)
      ensures answered.None? ==> next == turn
      ensures stop.Some? ==> StoppedEarly(stop.value, next, host.log)
      ensures answered.Some? ==> answered.value.marks != [] && answered.value.marks[0] == |old(host.log)|
      ensures answered.Some? ==> SawDownAt(host.log, answered.value.marks[|answered.value.marks| - 1])
      ensures answered.Some? ==> AllServed(host.env, host.tools, host.log, answered.value.marks,
                                           answered.value.turn.toolCalls, answered.value.responses)
    {
      hide AllServed, Broke, SawCancel, Calls, Conversed, EndsWithTurn, Matches, Paired;
      hide Host.Valid, DeepSeekProvider.Valid;
      answered, next := None, turn;
      var responses, marks;
      stop, responses, marks := RunTools(host, turn.toolCalls);
      if stop.Some? {
        return;
      }
      ghost var served := host.log;
      var seen := host.ReadCancel();
      if seen {
        stop := Some(CANCELLED);
        return;
      }
      answered := Some(Round(turn, responses, marks));
      stop, next := NextTurn(host, answered.value, sent0, rounds);
      AllServedStays(host.env, host.tools, served, host.log, marks, turn.toolCalls, responses);
    }

    /** The loop of tool rounds and continuation turns after a first successful turn. */
    method ToolLoop(host: Host, first: ModelTurn, ghost sent0: seq<seq<Message>>, ghost calls0: int)
      returns (result: PromptResult, rounds: seq<Round>, turn: ModelTurn)
      requires host.Valid() && maxToolRounds < 0x7fff_ffff
      requires provider != null && provider.Valid()
      requires host.log != [] && host.log[|host.log| - 1] == CancelRead(false) && EndsWithTurn(provider.messages, first)
      requires Conversed(sent0, provider.sent, [], 1) && Calls(host.log) == calls0 + 1
      modifies host, provider
      ensures host.Valid() && old(host.log) <= host.log && |rounds| <= Max0(maxToolRounds)
      ensures provider.Valid() && Conversed(sent0, provider.sent, rounds, Calls(host.log) - calls0)
      ensures Justified(result, maxToolRounds, rounds, turn, host.log)
      ensures RoundsServed(host.env, host.tools, host.log, rounds)
      ensures result.Ended? && result.ok ==> Concluded(host, provider, turn)
      ensures OutOfRounds(result, turn) ==> Calls(host.log) == calls0 + 1 + |rounds|
      ensures OutOfRounds(result, turn) ==> |rounds| == if maxToolRounds > 0 then maxToolRounds as int else 0
      ensures old(provider.sent) <= provider.sent
      ensures Paired(sent0, old(provider.sent), old(provider.messages)) ==>
                Paired(sent0, provider.sent, provider.messages)
    {
      hide *;
      NothingServed(host.env, host.tools, host.log);
      rounds, turn := [], first;
      var round: int32 := 0;
      while turn.toolCalls != []
        invariant host.Valid() && old(host.log) <= host.log && host.log[|host.log| - 1] == CancelRead(false)
        invariant provider.Valid() && EndsWithTurn(provider.messages, turn)
        invariant round as int == |rounds| && |rounds| <= Max0(maxToolRounds)
        invariant Conversed(sent0, provider.sent, rounds, |rounds| + 1) && Calls(host.log) == calls0 + |rounds| + 1
        invariant RoundsServed(host.env, host.tools, host.log, rounds) && old(provider.sent) <= provider.sent
        invariant Paired(sent0, old(provider.sent), old(provider.messages)) ==>
                    Paired(sent0, provider.sent, provider.messages)
        decreases maxToolRounds as int - round as int
      {
        EndedTurnIsOk(provider.messages, turn);
        RoundsLeft(maxToolRounds, rounds);
        round := round + 1;
        if round > maxToolRounds {
          result := Ended(false, "Stopped after too many tool calls.", false);
          BudgetSpent(result, maxToolRounds, rounds, turn, host.log);
          return;
        }
        ghost var before := host.log;
        var stop, answered, next := OneRound(host, turn, sent0, rounds);
        RoundsServedStays(host.env, host.tools, before, host.log, rounds);
        turn := next;
        if answered.Some? {
          OneMoreServed(host.env, host.tools, before, host.log, rounds, answered.value);
          rounds := rounds + [answered.value];
        }
        if stop.None? { SawDownLast(host.log); }
        if stop.Some? {
          result := stop.value;
          EarlyStopIsJustified(result, maxToolRounds, rounds, turn, host.log);
          return;
        }
      }
      result := Ended(true, turn.text, false);
      LastTurnAnswers(maxToolRounds, rounds, turn, host, provider);
    }

    /** One prompt: `rounds` are the turns whose calls were answered, `turn` the last turn received. */
    method Prompt(text: string, host: Host) returns (result: PromptResult, rounds: seq<Round>, turn: ModelTurn)
      requires host.Valid() && maxToolRounds < 0x7fff_ffff
      requires provider != null ==> provider.Valid() && KeepFrom(provider.messages) <= maxHistoryEntries
      modifies host, provider
      ensures host.Valid() && old(host.log) <= host.log && |rounds| <= Max0(maxToolRounds)
      ensures provider != null ==> provider.Valid()
      ensures provider != null ==>
                Conversed(old(provider.sent), provider.sent, rounds, Calls(host.log) - Calls(old(host.log)))
      ensures provider == null || apiKey == "" || activeModel == "" ==>
                result.Ended? && !result.ok && rounds == [] && host.log == old(host.log)
      ensures provider != null && apiKey != "" && activeModel != "" ==>
                && Justified(result, maxToolRounds, rounds, turn, host.log)
                && RoundsServed(host.env, host.tools, host.log, rounds)
      ensures result.Ended? && result.ok ==> provider != null && Concluded(host, provider, turn)
      ensures provider != null && PairedAfterTrim(old(provider.messages), maxHistoryEntries) ==>
                Paired(old(provider.sent), provider.sent, provider.messages)
      ensures provider != null ==> Opened(Trimmed(old(provider.messages), maxHistoryEntries), systemInstruction, text,
                                          old(provider.sent), provider.sent)
      ensures provider != null && apiKey != "" && activeModel != "" && OutOfRounds(result, turn) ==>
                && |rounds| == (if maxToolRounds > 0 then maxToolRounds as int else 0)
                && Calls(host.log) == Calls(old(host.log)) + 1 + |rounds|
    {
      hide RoundsServed, AllServed, Broke, SawCancel, Paired, PairedAfterTrim;
      hide Calls, Conversed, EndsWithTurn, TurnEffect, CallsAnswered, RoundsMatch, Matches, Asked, Replies;
      hide Host.Valid, DeepSeekProvider.Valid;
      rounds, turn := [], FailedTurn("", false);
      if provider == null {
        result := Ended(false, "Select a provider first.", false);
        return;
      }
      FirstRequest(provider.sent, []);
      PairedAtFirst(provider.sent, provider.messages, maxHistoryEntries);
      if apiKey == "" {
        result := Ended(false, "No API key is set.", false);
        return;
      }
      if activeModel == "" {
        result := Ended(false, "No model is selected.", false);
        return;
      }
      var stop;
      stop, turn := FirstTurn(text, host);
      NothingServed(host.env, host.tools, host.log);
      if stop.Some? {
        result := stop.value;
        return;
      }
      result, rounds, turn := ToolLoop(host, turn, old(provider.sent), Calls(old(host.log)));
    }
  }
}
