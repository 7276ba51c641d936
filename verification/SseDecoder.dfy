/** The incremental decoder: a buffer that is fed chunk by chunk and cut in place. */
module SseDecoding {
  import opened SseText
  import opened SseEvents

  lemma DropCRSnoc(bytes: string, i: nat)
    requires i < |bytes|
    ensures DropCR(bytes[..i + 1]) == DropCR(bytes[..i]) + if bytes[i] == '\r' then "" else [bytes[i]]
  {
    assert bytes[..i + 1] == bytes[..i] + [bytes[i]];
    DropCRConcat(bytes[..i], [bytes[i]]);
    assert [bytes[i]][1..] == "";
  }

  /** What has been emitted so far, followed by what the buffer still decodes to, is the whole. */
  ghost predicate Drained(text: string, events: seq<string>, pending: string) {
    Decode(text) == Decoded(events, "").Then(Decode(pending))
  }

  lemma NothingDrained(text: string)
    ensures Drained(text, [], text)
  {
  }

  lemma DrainOneBlock(text: string, events: seq<string>, pending: string)
    requires Drained(text, events, pending)
    ensures var e := FindBlank(pending, 0);
            if e < 0 then NoBlank(pending) && Decode(text) == Decoded(events, pending)
            else Drained(text, events + Emit(pending[..e]), pending[e + 2..])
  {
    CutAtBlank(pending);
    DecodeOneBlock(pending);
    var e := FindBlank(pending, 0);
    if e >= 0 {
      ThenAssociates(Decoded(events, ""), Decoded(Emit(pending[..e]), ""), Decode(pending[e + 2..]));
    }
  }

  /** The lines before `start` are `done`, and `data` is what they carry. */
  ghost predicate Collected(event: string, start: nat, done: seq<string>, data: string)
    requires start <= |event|
  {
    Lines(event) == done + Lines(event[start..]) && data == Join(DropLeadingEmpty(Payloads(done)))
  }

  /** The data collected so far, after one more line. */
  function Extend(data: string, line: string): string {
    if !IsData(line) then data
    else if data == "" then Payload(line)
    else data + "\n" + Payload(line)
  }

  lemma NothingCollected(event: string)
    ensures Collected(event, 0, [], "")
  {
    assert event[0..] == event;
  }

  lemma ExtendOneLine(done: seq<string>, line: string)
    ensures Join(DropLeadingEmpty(Payloads(done + [line]))) ==
            Extend(Join(DropLeadingEmpty(Payloads(done))), StripCR(line))
  {
    PayloadsConcat(done, [line]);
    var own := LinePayload(StripCR(line));
    assert [line][1..] == [];
    assert Payloads([line]) == own + [];
    if own == [] {
      assert Payloads(done) + [] == Payloads(done);
    } else {
      JoinOneMore(Payloads(done), own[0]);
      assert Payloads([line]) == [own[0]];
    }
  }

  /** The lines from an offset on, read off the newline search in the whole text. */
  lemma LinesFrom(event: string, start: nat)
    requires start <= |event|
    ensures var e := FindNewline(event, start);
            Lines(event[start..]) ==
            if e < 0 then [event[start..]] else [event[start..e]] + Lines(event[e + 1..])
  {
    var e, rest := FindNewline(event, start), event[start..];
    if e < 0 {
      assert forall i :: 0 <= i < |rest| ==> rest[i] == event[start + i];
      assert FindNewline(rest, 0) < 0;
    } else {
      var line := event[start..e];
      assert rest == line + "\n" + event[e + 1..];
      assert forall i :: 0 <= i < |line| ==> line[i] == event[start + i];
      LinesCons(line, event[e + 1..]);
    }
  }

  lemma CollectLine(event: string, start: nat, done: seq<string>, data: string)
    requires start <= |event| && Collected(event, start, done, data)
    ensures var e := FindNewline(event, start);
            var line := event[start..if e < 0 then |event| else e];
            var more := Extend(data, StripCR(line));
            if e < 0 then more == EventOf(event) else Collected(event, e + 1, done + [line], more)
  {
    hide Join, DropLeadingEmpty, Payloads, Lines, FindNewline;
    var e := FindNewline(event, start);
    var line := event[start..if e < 0 then |event| else e];
    LinesFrom(event, start);
    ExtendOneLine(done, line);
    assert e < 0 ==> event[start..] == line && Lines(event) == done + [line];
    assert e >= 0 ==> Lines(event) == (done + [line]) + Lines(event[e + 1..]);
  }

  /** The inner line loop: collects the data lines of one block. */
  method Assemble(event: string) returns (data: string)
    ensures data == EventOf(event)
  {
    hide EventOf, FindNewline, Collected;
    data := "";
    var start := 0;
    ghost var done: seq<string> := [];
    NothingCollected(event);
    while start <= |event|
      invariant start <= |event|
      invariant Collected(event, start, done, data)
      decreases |event| - start
    {
      CollectLine(event, start, done, data);
      var lineEnd := FindNewline(event, start);
      var line := event[start..if lineEnd < 0 then |event| else lineEnd];
      ghost var raw, before := line, data;
      done := done + [raw];
      if line != "" && line[|line| - 1] == '\r' {
        line := line[..|line| - 1];
      }
      if "data:" <= line {
        line := line[5..];
        if line != "" && line[0] == ' ' {
          line := line[1..];
        }
        if data != "" {
          data := data + "\n";
        }
        data := data + line;
      }
      assert data == Extend(before, StripCR(raw));
      if lineEnd < 0 {
        break;
      }
      start := lineEnd + 1;
    }
  }

  class SseDecoder {
    var pending: string

    ghost predicate Valid()
      reads this
    {
      NoBlank(pending) && '\r' !in pending
    }

    constructor ()
      ensures Valid() && pending == ""
    {
      pending := "";
    }

    /** The outer loop: cuts complete blocks off the front of the buffer until none is left. */
    method Drain() returns (events: seq<string>)
      requires '\r' !in pending
      modifies this
      ensures Valid()
      ensures Decoded(events, pending) == Decode(old(pending))
    {
      hide Decode, EventOf, FindBlank, Drained;
      events := [];
      NothingDrained(pending);
      while true
        invariant '\r' !in pending
        invariant Drained(old(pending), events, pending)
        decreases |pending|
      {
        DrainOneBlock(old(pending), events, pending);
        var end := FindBlank(pending, 0);
        if end < 0 {
          break;
        }
        var event := pending[..end];
        pending := pending[end + 2..];
        var data := Assemble(event);
        ghost var before := events;
        if data != "" {
          events := events + [data];
        }
        assert events == before + Emit(event);
      }
    }

    /** Feeds one chunk; `events` are the payloads handed to the callback, in order. */
    method Push(bytes: string) returns (events: seq<string>)
      requires Valid()
      modifies this
      ensures Valid()
      ensures Decoded(events, pending) == Decode(old(pending) + DropCR(bytes))
    {
      hide Decode;
      ghost var before := pending;
      for i := 0 to |bytes|
        invariant pending == before + DropCR(bytes[..i])
      {
        DropCRSnoc(bytes, i);
        if bytes[i] != '\r' {
          pending := pending + [bytes[i]];
        }
      }
      assert bytes[..|bytes|] == bytes;
      events := Drain();
    }

    /** Ends the stream. */
    method Finish() returns (events: seq<string>)
      requires Valid()
      modifies this
      ensures Valid()
      ensures Decoded(events, pending) == Flush(old(pending))
      ensures old(pending) == "" ==> events == [] && pending == ""
      ensures old(pending) != "" && !("data:" <= old(pending)) ==> events == [old(pending)] && pending == ""
    {
      if pending == "" {
        return [];
      }
      if IsData(pending) {
        assert DropCR("\n\n") == "\n\n" by { DropCRIdentity("\n\n"); }
        events := Push("\n\n");
        return;
      }
      var tail := pending;
      pending := "";
      events := [tail];
    }
  }

  // ---- any division into chunks ----

  /** What a decoder with this buffer has emitted, and holds, after the chunks. */
  function Feed(pending: string, chunks: seq<string>): Decoded
    decreases |chunks|
  {
    if chunks == [] then Decoded([], pending)
    else
      var first := Decode(pending + DropCR(chunks[0]));
      first.Then(Feed(first.rest, chunks[1..]))
  }

  lemma ChunkAndOthers(pending: string, chunks: seq<string>)
    requires chunks != []
    ensures var first := Decode(pending + DropCR(chunks[0]));
            Decode(pending + DropCR(Concat(chunks))) == first.Then(Decode(first.rest + DropCR(Concat(chunks[1..]))))
  {
    hide Decode, DropCR;
    var head, others := pending + DropCR(chunks[0]), DropCR(Concat(chunks[1..]));
    DropCRConcat(chunks[0], Concat(chunks[1..]));
    assert pending + DropCR(Concat(chunks)) == head + others;
    DecodeInTwoSteps(head, others);
  }

  /** Chunk boundaries do not matter: every division decodes as the whole text does. */
  lemma {:induction false} ChunkIndependence(pending: string, chunks: seq<string>)
    requires NoBlank(pending)
    ensures Feed(pending, chunks) == Decode(pending + DropCR(Concat(chunks)))
    ensures NoBlank(Feed(pending, chunks).rest)
    decreases |chunks|
  {
    if chunks == [] {
      assert pending + DropCR(Concat(chunks)) == pending;
      SegmentsAreUnique(pending, Segments([], pending));
    } else {
      var head, others := pending + DropCR(chunks[0]), DropCR(Concat(chunks[1..]));
      SegmentIsSegmented(head);
      ChunkIndependence(Decode(head).rest, chunks[1..]);
      ChunkAndOthers(pending, chunks);
    }
  }

  lemma {:induction false} FeedSnoc(pending: string, chunks: seq<string>, last: string)
    ensures var x := Feed(pending, chunks);
            Feed(pending, chunks + [last]) == x.Then(Decode(x.rest + DropCR(last)))
    decreases |chunks|
  {
    var first := Decode(pending + DropCR((chunks + [last])[0]));
    if chunks == [] {
      var none := Feed(first.rest, []);
      assert (chunks + [last])[1..] == [];
      assert Feed(pending, chunks + [last]) == first.Then(none);
      assert first.Then(none) == first == Decoded([], pending).Then(first);
    } else {
      var others := Feed(first.rest, chunks[1..]);
      assert (chunks + [last])[1..] == chunks[1..] + [last];
      FeedSnoc(first.rest, chunks[1..], last);
      ThenAssociates(first, others, Decode(others.rest + DropCR(last)));
    }
  }

  /** Two divisions of the same bytes into chunks cannot be told apart. */
  lemma SameBytesSameEvents(a: seq<string>, b: seq<string>)
    requires DropCR(Concat(a)) == DropCR(Concat(b))
    ensures Feed("", a) == Feed("", b)
  {
    ChunkIndependence("", a);
    ChunkIndependence("", b);
  }
}
