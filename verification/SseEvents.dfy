/** What an event stream means as a whole: its blank-line separated blocks and their payloads. */
module SseEvents {
  import opened SseText

  /** The blocks of a text that are closed by a blank line, and the unfinished rest. */
  datatype Segments = Segments(blocks: seq<string>, tail: string)

  /** Cuts at the leftmost blank line until none is left. */
  function Segment(text: string): Segments
    decreases |text|
  {
    var e := FindBlank(text, 0);
    if e < 0 then Segments([], text)
    else
      var rest := Segment(text[e + 2..]);
      Segments([text[..e]] + rest.blocks, rest.tail)
  }

  /** The inverse reading: every block closed by a blank line, then the tail. */
  function Frame(blocks: seq<string>, tail: string): string {
    if blocks == [] then tail else blocks[0] + "\n\n" + Frame(blocks[1..], tail)
  }

  /** A declarative cut of a text: nothing lost, and no blank line left inside a part. */
  ghost predicate Segmented(text: string, s: Segments) {
    && text == Frame(s.blocks, s.tail)
    && NoBlank(s.tail)
    && forall i :: 0 <= i < |s.blocks| ==> NoBlank(s.blocks[i] + "\n")
  }

  /** What FindBlank cuts off: nothing is lost and the piece in front holds no blank line. */
  lemma CutAtBlank(text: string)
    ensures var e := FindBlank(text, 0);
            if e < 0 then NoBlank(text)
            else text == text[..e] + "\n\n" + text[e + 2..] && NoBlank(text[..e] + "\n")
  {
    var e := FindBlank(text, 0);
    if e < 0 {
      forall i ensures !BlankAt(text, i) { assert i < 0 || !BlankAt(text, i); }
    } else {
      var front := text[..e] + "\n";
      assert front == text[..e + 1];
      forall i ensures !BlankAt(front, i) { assert i < 0 || i >= e || !BlankAt(text, i); }
    }
  }

  /** The leftmost blank line behind a piece that holds none. */
  lemma FirstBlank(front: string, rest: string)
    requires NoBlank(front + "\n")
    ensures FindBlank(front + "\n\n" + rest, 0) == |front|
  {
    var text := front + "\n\n" + rest;
    assert BlankAt(text, |front|);
    assert text[..|front| + 1] == front + "\n";
    forall i | 0 <= i < |front| ensures !BlankAt(text, i) {
      assert text[i] == (front + "\n")[i] && text[i + 1] == (front + "\n")[i + 1];
      assert !BlankAt(front + "\n", i);
    }
  }

  lemma {:induction false} SegmentIsSegmented(text: string)
    ensures Segmented(text, Segment(text))
    decreases |text|
  {
    CutAtBlank(text);
    var e := FindBlank(text, 0);
    if e < 0 {
    } else {
      SegmentIsSegmented(text[e + 2..]);
      var s := Segment(text);
      assert s.blocks[0] == text[..e] && s.blocks[1..] == Segment(text[e + 2..]).blocks;
    }
  }

  /** Only one cut is possible, so Segment is the meaning of "split at blank lines". */
  lemma {:induction false} SegmentsAreUnique(text: string, s: Segments)
    requires Segmented(text, s)
    ensures Segment(text) == s
    decreases |s.blocks|
  {
    if s.blocks == [] {
      assert !BlankAt(text, FindBlank(text, 0));
    } else {
      var b, rest := s.blocks[0], Frame(s.blocks[1..], s.tail);
      SegmentsAreUnique(rest, Segments(s.blocks[1..], s.tail));
      FirstBlank(b, rest);
      assert text[..|b|] == b && text[|b| + 2..] == rest;
      assert s.blocks == [b] + s.blocks[1..];
    }
  }

  lemma {:induction false} FrameConcat(a: seq<string>, b: seq<string>, tail: string)
    ensures Frame(a + b, tail) == Frame(a, Frame(b, tail))
  {
    if a == [] {
      assert a + b == b;
    } else {
      assert (a + b)[1..] == a[1..] + b;
      FrameConcat(a[1..], b, tail);
    }
  }

  lemma {:induction false} FrameAppend(blocks: seq<string>, tail: string, more: string)
    ensures Frame(blocks, tail) + more == Frame(blocks, tail + more)
  {
    if blocks == [] {
    } else {
      FrameAppend(blocks[1..], tail, more);
    }
  }

  /** Cutting a text in two steps, carrying the unfinished tail over, cuts it as one step does. */
  lemma SegmentInTwoSteps(a: string, b: string)
    ensures var x := Segment(a); var y := Segment(x.tail + b);
            Segment(a + b) == Segments(x.blocks + y.blocks, y.tail)
  {
    var x := Segment(a);
    var y := Segment(x.tail + b);
    SegmentIsSegmented(a);
    SegmentIsSegmented(x.tail + b);
    FrameAppend(x.blocks, x.tail, b);
    FrameConcat(x.blocks, y.blocks, y.tail);
    SegmentsAreUnique(a + b, Segments(x.blocks + y.blocks, y.tail));
  }

  // ---- one block ----

  /** A line without one trailing carriage return. */
  function StripCR(line: string): string {
    if line != "" && line[|line| - 1] == '\r' then line[..|line| - 1] else line
  }

  predicate IsData(line: string) {
    "data:" <= line
  }

  /** What a `data:` line carries: the rest of the line, without one leading space. */
  function Payload(line: string): string
    requires IsData(line)
  {
    var rest := line[5..];
    if rest != "" && rest[0] == ' ' then rest[1..] else rest
  }

  function LinePayload(line: string): seq<string> {
    if IsData(line) then [Payload(line)] else []
  }

  function Payloads(lines: seq<string>): seq<string> {
    if lines == [] then [] else LinePayload(StripCR(lines[0])) + Payloads(lines[1..])
  }

  function DropLeadingEmpty(ps: seq<string>): seq<string> {
    if ps != [] && ps[0] == "" then DropLeadingEmpty(ps[1..]) else ps
  }

  /** The payload of a block: its data lines joined by newlines, leading empty ones left out. */
  function EventOf(block: string): string {
    Join(DropLeadingEmpty(Payloads(Lines(block))))
  }

  /** A block with an empty payload is not an event. */
  function Emit(block: string): seq<string> {
    if EventOf(block) == "" then [] else [EventOf(block)]
  }

  /** The payloads of the blocks in order. */
  function Events(blocks: seq<string>): seq<string> {
    if blocks == [] then [] else Emit(blocks[0]) + Events(blocks[1..])
  }

  lemma {:induction false} EventsConcat(a: seq<string>, b: seq<string>)
    ensures Events(a + b) == Events(a) + Events(b)
  {
    if a == [] {
      assert a + b == b;
    } else {
      assert (a + b)[1..] == a[1..] + b && (a + b)[0] == a[0];
      calc {
        Events(a + b);
        Emit(a[0]) + Events(a[1..] + b);
        { EventsConcat(a[1..], b); }
        Emit(a[0]) + (Events(a[1..]) + Events(b));
        (Emit(a[0]) + Events(a[1..])) + Events(b);
        Events(a) + Events(b);
      }
    }
  }

  lemma {:induction false} PayloadsConcat(a: seq<string>, b: seq<string>)
    ensures Payloads(a + b) == Payloads(a) + Payloads(b)
  {
    if a == [] {
      assert a + b == b;
    } else {
      var first := LinePayload(StripCR(a[0]));
      assert (a + b)[1..] == a[1..] + b && (a + b)[0] == a[0];
      calc {
        Payloads(a + b);
        first + Payloads(a[1..] + b);
        { PayloadsConcat(a[1..], b); }
        first + (Payloads(a[1..]) + Payloads(b));
        (first + Payloads(a[1..])) + Payloads(b);
        Payloads(a) + Payloads(b);
      }
    }
  }

  lemma {:induction false} DropLeadingEmptySnoc(ps: seq<string>, p: string)
    ensures DropLeadingEmpty(ps + [p]) ==
            if DropLeadingEmpty(ps) == [] && p == "" then [] else DropLeadingEmpty(ps) + [p]
    ensures DropLeadingEmpty(ps) == [] <==> Join(DropLeadingEmpty(ps)) == ""
  {
    if ps != [] && ps[0] == "" {
      assert (ps + [p])[1..] == ps[1..] + [p];
      DropLeadingEmptySnoc(ps[1..], p);
    } else if ps == [] {
      assert [p][1..] == [];
    }
  }

  /** One more data line, appended the way the decoder appends it. */
  lemma JoinOneMore(ps: seq<string>, p: string)
    ensures var data := Join(DropLeadingEmpty(ps));
            Join(DropLeadingEmpty(ps + [p])) == if data == "" then p else data + "\n" + p
  {
    hide Join, DropLeadingEmpty;
    DropLeadingEmptySnoc(ps, p);
    JoinSnoc(DropLeadingEmpty(ps), p);
  }

  // ---- the whole stream ----

  /** The events of a piece of the stream, and the text it leaves unfinished. */
  datatype Decoded = Decoded(events: seq<string>, rest: string) {
    function Then(next: Decoded): Decoded {
      Decoded(events + next.events, next.rest)
    }
  }

  lemma ThenAssociates(x: Decoded, y: Decoded, z: Decoded)
    ensures x.Then(y).Then(z) == x.Then(y.Then(z))
  {
    assert (x.events + y.events) + z.events == x.events + (y.events + z.events);
  }

  /** The batch meaning of a text that is free of carriage returns. */
  function Decode(text: string): Decoded {
    var s := Segment(text);
    Decoded(Events(s.blocks), s.tail)
  }

  /** What is flushed when the stream ends with `rest` still unfinished. */
  function Flush(rest: string): Decoded {
    if rest == "" then Decoded([], "")
    else if IsData(rest) then Decode(rest + "\n\n")
    else Decoded([rest], "")
  }

  lemma DecodeInTwoSteps(a: string, b: string)
    ensures Decode(a + b) == Decode(a).Then(Decode(Decode(a).rest + b))
  {
    SegmentInTwoSteps(a, b);
    EventsConcat(Segment(a).blocks, Segment(Segment(a).tail + b).blocks);
  }

  lemma EventsCons(block: string, rest: seq<string>)
    ensures Events([block] + rest) == Emit(block) + Events(rest)
  {
    hide Emit;
    assert ([block] + rest)[1..] == rest;
  }

  /** Decoding one block at a time. */
  lemma DecodeOneBlock(text: string)
    ensures var e := FindBlank(text, 0);
            Decode(text) == if e < 0 then Decoded([], text)
                            else Decoded(Emit(text[..e]), "").Then(Decode(text[e + 2..]))
  {
    hide Emit;
    var e := FindBlank(text, 0);
    if e >= 0 {
      EventsCons(text[..e], Segment(text[e + 2..]).blocks);
    }
  }

  /** Flushing emits at most one event and leaves at most one newline behind. */
  lemma FlushEmitsAtMostOne(rest: string)
    requires NoBlank(rest)
    ensures |Flush(rest).events| <= 1
    ensures Flush(rest).rest == if IsData(rest) && rest[|rest| - 1] == '\n' then "\n" else ""
    ensures IsData(rest) ==>
              var body := if rest[|rest| - 1] == '\n' then rest[..|rest| - 1] else rest;
              Flush(rest).events == Emit(body)
  {
    if IsData(rest) {
      var closed := rest[|rest| - 1] == '\n';
      var body := if closed then rest[..|rest| - 1] else rest;
      var left := if closed then "\n" else "";
      assert rest + "\n\n" == body + "\n\n" + left;
      assert Frame([body], left) == body + "\n\n" + Frame([], left);
      assert forall i :: BlankAt(body + "\n", i) && i < |body| - 1 ==> BlankAt(rest, i);
      if !closed { assert forall i :: BlankAt(body + "\n", i) ==> i != |body| - 1; }
      if closed { assert forall i :: BlankAt(body + "\n", i) ==> BlankAt(rest, i); }
      assert NoBlank(body + "\n");
      SegmentsAreUnique(rest + "\n\n", Segments([body], left));
      assert Events([body]) == Emit(body) + Events([]);
    }
  }
}
