/** A chat provider: its history, and one model turn over the streaming request. */
module DeepSeekProviding {
  import opened Options
  import opened JsonValues
  import opened StreamDeltas
  import opened StreamParsing
  import opened HttpRetry
  import opened History

  datatype ToolCall = ToolCall(id: string, name: string, arguments: Json)
  datatype ToolResponse = ToolResponse(callId: string, name: string, result: Json)
  datatype ModelTurn = ModelTurn(ok: bool, text: string, toolCalls: seq<ToolCall>, error: string, cancelled: bool)

  const MAX_ATTEMPTS := 3

  /** The outside world of one turn: cancel reads, network attempts, and JSON text readers. */
  datatype TurnEnv = TurnEnv(cancelBefore: bool, attempts: nat -> Attempt, cancelAfter: bool,
                             read: Reader, readArguments: string -> Option<Json>)

  function FailedTurn(error: string, cancelled: bool): ModelTurn {
    ModelTurn(false, "", [], error, cancelled)
  }

  /** What the n-th attempt of a turn, if it is the last, makes of an empty answer. */
  function AnswerOf(env: TurnEnv, n: nat): Answer {
    Replay(EMPTY, StreamEffects(env.read, AttemptEvents(env.attempts(n))))
  }

  /** The identifiers a slot must have to be turned into a call. */
  predicate Readable(slot: Slot) {
    slot.id.Str? && slot.name.Str?
  }

  function CallOf(env: TurnEnv, slot: Slot): ToolCall
    requires Readable(slot)
  {
    ToolCall(slot.id.text, slot.name.text,
             match env.readArguments(slot.arguments) case Some(v) => v case None => Obj(map[]))
  }

  /** A successful turn: its message, and one call per slot, in order. */
  ghost predicate TurnMatches(env: TurnEnv, turn: ModelTurn, answer: Answer) {
    && turn.text == answer.text
    && |turn.toolCalls| == |answer.calls|
    && forall i :: 0 <= i < |answer.calls| ==>
         Readable(answer.calls[i]) && turn.toolCalls[i] == CallOf(env, answer.calls[i])
  }

  /** The history just before a continuation request: the calls of one message, all answered in order. */
  ghost predicate CallsAnswered(h: seq<Message>, calls: seq<ToolCall>) {
    var cut := |h| - |calls|;
    && 0 < cut
    && var asked := h[cut - 1];
       && asked.Assistant? && |asked.calls| == |calls|
       && (forall i :: 0 <= i < |calls| ==> asked.calls[i].id == Str(calls[i].id))
       && forall k :: cut <= k < |h| ==> h[k].ToolReply? && h[k].callId == calls[k - cut].id
  }

  predicate Ends(env: TurnEnv, k: nat) {
    Final(env.attempts(k), k, false, 3) || env.attempts(k).cancelInSleep
  }

  /** Attempt n is the one that ends the retry loop of the turn. */
  ghost predicate LastAttempt(env: TurnEnv, n: nat) {
    && n < 3
    && (forall k :: 0 <= k < n ==> !Ends(env, k))
    && Ends(env, n)
  }

  ghost predicate Succeeds(env: TurnEnv, n: nat) {
    env.attempts(n).reply.Answered? && 200 <= env.attempts(n).reply.status < 300
  }

  /** The last attempt succeeded, and its answer became one message and the turn's calls. */
  ghost predicate Completed(env: TurnEnv, n: nat, before: seq<Message>, after: seq<Message>, turn: ModelTurn) {
    && LastAttempt(env, n) && Succeeds(env, n)
    && TurnMatches(env, turn, AnswerOf(env, n))
    && after == before + [Assistant(turn.text, AnswerOf(env, n).calls)]
  }

  ghost predicate Unsuccessful(env: TurnEnv, n: nat) {
    LastAttempt(env, n) && !Succeeds(env, n)
  }

  /** The last attempt succeeded, but one of its slots has no readable identifier or name. */
  ghost predicate Unreadable(env: TurnEnv, n: nat, before: seq<Message>, after: seq<Message>) {
    && LastAttempt(env, n) && Succeeds(env, n)
    && after == before + [Assistant(AnswerOf(env, n).text, AnswerOf(env, n).calls)]
    && exists i :: 0 <= i < |AnswerOf(env, n).calls| && !Readable(AnswerOf(env, n).calls[i])
  }

  /** What a turn request makes of the history `before`, and what the turn then says. */
  ghost predicate TurnEffect(env: TurnEnv, before: seq<Message>, sentBefore: seq<seq<Message>>,
                             turn: ModelTurn, after: seq<Message>, sentAfter: seq<seq<Message>>)
  {
    && sentAfter == (if env.cancelBefore then sentBefore else sentBefore + [before])
    && turn.cancelled == (env.cancelBefore || env.cancelAfter)
    && (turn.cancelled ==> !turn.ok)
    && (if turn.cancelled then after == before
        else if turn.ok then exists n: nat :: Completed(env, n, before, after, turn)
        else
          || (after == before && exists n: nat :: Unsuccessful(env, n))
          || exists n: nat :: Unreadable(env, n, before, after))
  }

  /** The calls of a turn are those of the message it left in the history, slot by slot. */
  ghost predicate SpeaksFor(env: TurnEnv, turn: ModelTurn, h: seq<Message>) {
    && h != [] && h[|h| - 1].Assistant? && h[|h| - 1].content == turn.text
    && var slots := h[|h| - 1].calls;
       && |slots| == |turn.toolCalls|
       && forall i :: 0 <= i < |slots| ==>
            && slots[i].id == Str(turn.toolCalls[i].id) && slots[i].name == Str(turn.toolCalls[i].name)
            && turn.toolCalls[i].arguments == match env.readArguments(slots[i].arguments)
                                              case Some(arguments) => arguments
                                              case None => Obj(map[])
  }

  lemma TurnSpeaksForItself(env: TurnEnv, before: seq<Message>, sentBefore: seq<seq<Message>>,
                            turn: ModelTurn, after: seq<Message>, sentAfter: seq<seq<Message>>)
    requires TurnEffect(env, before, sentBefore, turn, after, sentAfter) && turn.ok
    ensures SpeaksFor(env, turn, after)
  {
    hide AnswerOf, LastAttempt;
    var n: nat :| Completed(env, n, before, after, turn);
    assert after[|after| - 1] == Assistant(turn.text, AnswerOf(env, n).calls);
  }

  function Asked(h: seq<Message>, systemInstruction: string, userPrompt: string): seq<Message> {
    (if h == [] && systemInstruction != "" then [System(systemInstruction)] else h) + [User(userPrompt)]
  }

  function Replies(responses: seq<ToolResponse>): seq<Message> {
    seq(|responses|, i requires 0 <= i < |responses| => ToolReply(responses[i].callId, responses[i].result))
  }

  /** The request is the history, followed by one reply for each response, with its id and its result. */
  ghost predicate Continues(h: seq<Message>, responses: seq<ToolResponse>, request: seq<Message>) {
    && |request| == |h| + |responses| && h <= request
    && forall i :: 0 <= i < |responses| ==>
         request[|h| + i] == ToolReply(responses[i].callId, responses[i].result)
  }

  lemma RepliesContinue(h: seq<Message>, responses: seq<ToolResponse>)
    ensures Continues(h, responses, h + Replies(responses))
  {
  }

  class DeepSeekProvider {
    var messages: seq<Message>
    /** The history of every request that was built, in order. */
    var sent: seq<seq<Message>>

    ghost predicate Valid()
      reads this
    {
      HeadOnly(messages)
    }

    constructor ()
      ensures Valid() && messages == [] && sent == []
    {
      messages, sent := [], [];
    }

    method TrimHistory(maxEntries: nat)
      requires Valid() && KeepFrom(messages) <= maxEntries
      modifies this`messages
      ensures Valid() && messages == Trimmed(old(messages), maxEntries)
    {
      hide HeadOnly, Erased, Trimmed;
      var keepFrom := KeepFrom(messages);
      NothingErased(messages);
      while |messages| > maxEntries
        invariant maxEntries <= |messages| <= |old(messages)| || messages == old(messages)
        invariant Erased(old(messages), messages, keepFrom) && keepFrom <= |messages|
        decreases |messages|
      {
        EraseOne(old(messages), messages, keepFrom);
        messages := messages[..keepFrom] + messages[keepFrom + 1..];
      }
      ErasedIsTrimmed(old(messages), messages, maxEntries);
      TrimmedIsLongestSuffix(old(messages), maxEntries);
    }

    /** The request itself: an empty answer, filled by the event callback across the attempts. */
    method StreamAnswer(env: TurnEnv) returns (reply: Reply, answer: Answer, last: nat)
      ensures LastAttempt(env, last) && reply == env.attempts(last).reply
      ensures answer == AnswerOf(env, last)
    {
      hide Replay, AttemptEvents, Final, QuotaText, Waited, Detail;
      var sink := new Accumulator();
      var request := new StreamRequest(env.read, sink);
      var attempts, delays;
      reply, attempts, delays := request.ExecuteStreamWithRetry(env.attempts, MAX_ATTEMPTS);
      last := attempts - 1;
      answer := sink.View();
    }

    method ExecuteTurnRequest(env: TurnEnv) returns (turn: ModelTurn)
      requires Valid()
      modifies this
      ensures Valid()
      ensures TurnEffect(env, old(messages), old(sent), turn, messages, sent)
      ensures turn.ok ==> SpeaksFor(env, turn, messages)
    {
      hide LastAttempt, AnswerOf;
      if env.cancelBefore {
        return FailedTurn("Request cancelled.", true);
      }
      sent := sent + [messages];
      var reply, answer, last := StreamAnswer(env);
      if env.cancelAfter {
        return FailedTurn("Request cancelled.", true);
      }
      if !Succeeded(reply) {
        assert Unsuccessful(env, last);
        return FailedTurn("Request failed.", false);
      }
      messages := messages + [Assistant(answer.text, answer.calls)];
      var toolCalls := [];
      for i := 0 to |answer.calls|
        invariant |toolCalls| == i
        invariant forall j :: 0 <= j < i ==> Readable(answer.calls[j]) && toolCalls[j] == CallOf(env, answer.calls[j])
      {
        if !Readable(answer.calls[i]) {
          assert Unreadable(env, last, old(messages), messages);
          return FailedTurn("Could not read the API response.", false);
        }
        toolCalls := toolCalls + [CallOf(env, answer.calls[i])];
      }
      turn := ModelTurn(true, answer.text, toolCalls, "", false);
      assert Completed(env, last, old(messages), messages, turn);
      TurnSpeaksForItself(env, old(messages), old(sent), turn, messages, sent);
    }

    method StartTurn(systemInstruction: string, userPrompt: string, env: TurnEnv) returns (turn: ModelTurn)
      requires Valid()
      modifies this
      ensures Valid()
      ensures var asked := Asked(old(messages), systemInstruction, userPrompt);
              TurnEffect(env, asked, old(sent), turn, messages, sent)
      ensures turn.ok ==> SpeaksFor(env, turn, messages)
      ensures !env.cancelBefore ==>
                sent == old(sent) + [(if old(messages) != [] then old(messages)
                                      else if systemInstruction == "" then [] else [System(systemInstruction)])
                                     + [User(userPrompt)]]
    {
      if messages == [] && systemInstruction != "" {
        messages := messages + [System(systemInstruction)];
      }
      messages := messages + [User(userPrompt)];
      assert messages == Asked(old(messages), systemInstruction, userPrompt);
      turn := ExecuteTurnRequest(env);
    }

    method ContinueTurn(responses: seq<ToolResponse>, env: TurnEnv) returns (turn: ModelTurn)
      requires Valid()
      modifies this
      ensures Valid()
      ensures TurnEffect(env, old(messages) + Replies(responses), old(sent), turn, messages, sent)
      ensures turn.ok ==> SpeaksFor(env, turn, messages)
      ensures !env.cancelBefore ==> |sent| == |old(sent)| + 1 && Continues(old(messages), responses, sent[|old(sent)|])
    {
      for i := 0 to |responses|
        invariant messages == old(messages) + Replies(responses[..i]) && sent == old(sent)
      {
        assert Replies(responses[..i + 1])
            == Replies(responses[..i]) + [ToolReply(responses[i].callId, responses[i].result)];
        messages := messages + [ToolReply(responses[i].callId, responses[i].result)];
      }
      assert responses[..|responses|] == responses;
      RepliesContinue(old(messages), responses);
      turn := ExecuteTurnRequest(env);
    }

    method ResetSession()
      modifies this`messages
      ensures Valid() && messages == []
    {
      messages := [];
    }
  }
}
