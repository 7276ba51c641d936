/** The chunk parsers: they update the answer in place, event by event. */
module StreamParsing {
  import opened JsonValues
  import opened StreamDeltas
  import opened StreamLaws

  class Accumulator {
    var text: string
    var calls: seq<Slot>
    var heard: seq<string>

    function View(): Answer
      reads this
    {
      Answer(text, calls, heard)
    }

    constructor ()
      ensures View() == EMPTY
    {
      text, calls, heard := "", [], [];
    }

    /** Appends fresh slots until there is one at the index. */
    method GrowTo(index: nat)
      modifies this`calls
      ensures calls == Grow(old(calls), index + 1)
    {
      while |calls| <= index
        invariant calls == Grow(old(calls), |calls|)
        invariant |old(calls)| <= |calls| && (|calls| <= index + 1 || |calls| == |old(calls)|)
        decreases index - |calls|
      {
        calls := calls + [FRESH];
      }
    }

    /** One entry of `tool_calls`; false stands for an exception. */
    method ApplyChange(change: Change) returns (ok: bool)
      modifies this
      ensures View() == Replay(old(View()), ChangeTrail(change).effects)
      ensures ok == !ChangeTrail(change).aborted
    {
      hide Replay;
      if change.index.Bad? {
        ReplayNothing(View());
        return false;
      }
      ghost var before := View();
      var index := IndexOf(change);
      GrowTo(index);
      var call := calls[index];
      if change.id.Some? {
        call := call.(id := change.id.value);
      }
      if change.kind.Some? {
        call := call.(kind := change.kind.value);
      }
      if change.name.Some? {
        call := call.(name := change.name.value);
      }
      if change.arguments.Good? {
        call := call.(arguments := call.arguments + change.arguments.value);
      }
      ghost var patch := ChangeTrail(change).effects[0];
      assert call.arguments == calls[index].arguments + patch.fragment;
      calls := calls[index := call];
      ok := !change.arguments.Bad?;
      ReplayOne(before, patch);
    }

    /** One delta: its content, then its tool-call changes in order. */
    method ApplyDelta(content: Field<string>, changes: seq<Change>) returns (ok: bool)
      modifies this
      ensures var t := ContentTrail(content).Then(ChangesTrail(changes));
              View() == Replay(old(View()), t.effects) && ok == !t.aborted
    {
      ghost var before := View();
      if content.Bad? {
        return false;
      }
      if content.Good? {
        ReplayOne(before, Say(content.value));
        text := text + content.value;
        heard := heard + [content.value];
      }
      ghost var done := ContentTrail(content);
      for i := 0 to |changes|
        invariant Reached(before, done.Then(ChangesTrail(changes[..i])), View(), true)
      {
        ghost var here := View();
        ok := ApplyChange(changes[i]);
        ReachedMore(before, done.Then(ChangesTrail(changes[..i])), here, ChangeTrail(changes[i]));
        ChangesSnoc(done, changes, i);
        if !ok {
          return;
        }
      }
      assert changes[..|changes|] == changes;
      ok := true;
    }

    /** One event for a DeepSeek stream. */
    method ParseDeepSeekChunk(read: Reader, event: string)
      modifies this
      ensures View() == Replay(old(View()), EventEffects(read, event))
    {
      ghost var before := View();
      if event == "[DONE]" {
        return;
      }
      var parsed := read(event);
      if parsed.Malformed? {
        return;
      }
      var packets := parsed.packets;
      for i := 0 to |packets|
        invariant Reached(before, PacketsTrail(packets[..i]), View(), true)
      {
        ghost var here := View();
        PacketsSnoc(packets, i);
        ReachedMore(before, PacketsTrail(packets[..i]), here, PacketTrail(packets[i]));
        if packets[i].body.NoDelta? {
          continue;
        }
        var ok := ApplyDelta(packets[i].body.content, packets[i].body.changes);
        if !ok {
          return;
        }
      }
      assert packets[..|packets|] == packets;
    }

    /** One event for an OpenRouter stream: packets that carry an error are passed over. */
    method ParseOpenRouterChunk(read: Reader, event: string)
      modifies this
      ensures View() == Replay(old(View()), EventEffects(ErrorsRemoved(read), event))
    {
      ghost var before := View();
      if event == "[DONE]" {
        return;
      }
      var parsed := read(event);
      if parsed.Malformed? {
        return;
      }
      var packets := parsed.packets;
      for i := 0 to |packets|
        invariant Reached(before, PacketsTrail(WithoutErrors(packets[..i])), View(), true)
      {
        ghost var here := View();
        WithoutErrorsSnoc(packets, i);
        if packets[i].hasError {
          continue;
        }
        ReachedMore(before, PacketsTrail(WithoutErrors(packets[..i])), here, PacketTrail(packets[i]));
        if packets[i].body.NoDelta? {
          continue;
        }
        var ok := ApplyDelta(packets[i].body.content, packets[i].body.changes);
        if !ok {
          return;
        }
      }
      assert packets[..|packets|] == packets;
    }
  }
}
