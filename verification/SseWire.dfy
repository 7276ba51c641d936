/**
 * Every way to write events on the wire: `data:` with or without a space, line by line, and other
 * lines (comments, other fields) anywhere inside an event or between events.
 */
module SseWire {
  import opened SseText
  import opened SseEvents
  import opened SseDecoding
  import opened SseRoundTrip

  /** A line of a block: some text behind `data:` or `data: `, or a line that is no data line. */
  datatype WireLine = Data(spaced: bool, text: string) | Other(text: string)

  function Written(line: WireLine): string {
    match line
    case Data(spaced, text) => if spaced then "data: " + text else "data:" + text
    case Other(text) => text
  }

  /** One line each; without the space a text must not start with one, and other lines are neither empty nor data. */
  predicate WellWritten(line: WireLine) {
    && '\n' !in line.text && '\r' !in line.text
    && match line
       case Data(spaced, text) => spaced || text == "" || text[0] != ' '
       case Other(text) => text != "" && !("data:" <= text)
  }

  function AllWritten(block: seq<WireLine>): seq<string> {
    seq(|block|, i requires 0 <= i < |block| => Written(block[i]))
  }

  /** The texts of the data lines, in order. */
  function Texts(block: seq<WireLine>): seq<string> {
    if block == [] then []
    else (if block[0].Data? then [block[0].text] else []) + Texts(block[1..])
  }

  ghost predicate WellFormed(block: seq<WireLine>) {
    block != [] && forall i :: 0 <= i < |block| ==> WellWritten(block[i])
  }

  /** The lines of a block, ended by a blank line. */
  function WrittenBlock(block: seq<WireLine>): string {
    Join(AllWritten(block)) + "\n\n"
  }

  function Wire(blocks: seq<seq<WireLine>>): string {
    if blocks == [] then "" else WrittenBlock(blocks[0]) + Wire(blocks[1..])
  }

  /** What the blocks say: the texts of each, joined by newlines, as far as anything is said. */
  function Said(blocks: seq<seq<WireLine>>): seq<string> {
    if blocks == [] then []
    else
      var said := TrimNewlines(Join(Texts(blocks[0])));
      (if said == "" then [] else [said]) + Said(blocks[1..])
  }

  // ---- one line ----

  lemma PayloadOfWritten(line: WireLine)
    requires WellWritten(line)
    ensures LinePayload(StripCR(Written(line))) == if line.Data? then [line.text] else []
    ensures Written(line) != "" && '\n' !in Written(line)
  {
    var wire := Written(line);
    assert wire != "" ==> wire[|wire| - 1] in wire;
    if line.Data? {
      assert wire[5..] == if line.spaced then " " + line.text else line.text;
      assert (" " + line.text)[1..] == line.text;
    }
  }

  lemma {:induction false} PayloadsOfWritten(block: seq<WireLine>)
    requires forall i :: 0 <= i < |block| ==> WellWritten(block[i])
    ensures Payloads(AllWritten(block)) == Texts(block)
  {
    if block == [] {
    } else {
      hide LinePayload, StripCR, Written, WellWritten;
      assert AllWritten(block)[0] == Written(block[0]) && AllWritten(block)[1..] == AllWritten(block[1..]);
      PayloadOfWritten(block[0]);
      PayloadsOfWritten(block[1..]);
    }
  }

  // ---- one block ----

  lemma {:induction false} TextsAreLines(block: seq<WireLine>)
    requires forall i :: 0 <= i < |block| ==> WellWritten(block[i])
    ensures OneLiners(Texts(block))
  {
    if block == [] {
    } else {
      TextsAreLines(block[1..]);
    }
  }

  lemma JoinOfTexts(texts: seq<string>)
    requires OneLiners(texts)
    ensures Join(DropLeadingEmpty(texts)) == TrimNewlines(Join(texts))
  {
    if texts == [] {
    } else {
      LinesJoin(texts);
      JoinTrimmed(Join(texts));
    }
  }

  lemma BlockMeaning(block: seq<WireLine>)
    requires WellFormed(block)
    ensures NoBlank(Join(AllWritten(block)) + "\n")
    ensures EventOf(Join(AllWritten(block))) == TrimNewlines(Join(Texts(block)))
  {
    hide Written, WellWritten, Join, Lines, Payloads, TrimNewlines, NoBlank;
    var lines := AllWritten(block);
    forall i | 0 <= i < |lines| ensures lines[i] != "" && '\n' !in lines[i] {
      PayloadOfWritten(block[i]);
    }
    NonEmptyLinesNoBlank(lines);
    LinesJoin(lines);
    PayloadsOfWritten(block);
    TextsAreLines(block);
    JoinOfTexts(Texts(block));
  }

  // ---- the whole wire ----

  function Contents(blocks: seq<seq<WireLine>>): seq<string> {
    seq(|blocks|, i requires 0 <= i < |blocks| => Join(AllWritten(blocks[i])))
  }

  ghost predicate AllWellFormed(blocks: seq<seq<WireLine>>) {
    forall i :: 0 <= i < |blocks| ==> WellFormed(blocks[i])
  }

  lemma {:induction false} WireIsFramed(blocks: seq<seq<WireLine>>)
    ensures Wire(blocks) == Frame(Contents(blocks), "")
  {
    if blocks == [] {
    } else {
      WireIsFramed(blocks[1..]);
      assert Contents(blocks)[1..] == Contents(blocks[1..]);
    }
  }

  lemma {:induction false} EventsOfWire(blocks: seq<seq<WireLine>>)
    requires AllWellFormed(blocks)
    ensures Events(Contents(blocks)) == Said(blocks)
  {
    hide EventOf, TrimNewlines, Texts, AllWritten, Join, WellFormed;
    if blocks == [] {
    } else {
      assert Contents(blocks)[0] == Join(AllWritten(blocks[0])) && Contents(blocks)[1..] == Contents(blocks[1..]);
      BlockMeaning(blocks[0]);
      EventsOfWire(blocks[1..]);
    }
  }

  /** Whatever unfinished text follows, a wire decodes to what its blocks say. */
  lemma DecodeWire(blocks: seq<seq<WireLine>>, tail: string)
    requires AllWellFormed(blocks) && NoBlank(tail)
    ensures Decode(Wire(blocks) + tail) == Decoded(Said(blocks), tail)
  {
    hide Wire, Said, WellFormed, NoBlank, AllWritten, Join;
    var contents := Contents(blocks);
    WireIsFramed(blocks);
    FrameAppend(contents, "", tail);
    assert "" + tail == tail;
    forall i | 0 <= i < |contents| ensures NoBlank(contents[i] + "\n") {
      BlockMeaning(blocks[i]);
    }
    SegmentsAreUnique(Wire(blocks) + tail, Segments(contents, tail));
    EventsOfWire(blocks);
  }

  /** However events are written, cut into chunks and sprinkled with carriage returns, what was said comes back. */
  lemma AnyWritingRoundTrips(blocks: seq<seq<WireLine>>, chunks: seq<string>)
    requires AllWellFormed(blocks) && DropCR(Concat(chunks)) == Wire(blocks)
    ensures Feed("", chunks) == Decoded(Said(blocks), "")
  {
    hide Wire, Said, Feed, Decode;
    ChunkIndependence("", chunks);
    DecodeWire(blocks, "");
    assert "" + DropCR(Concat(chunks)) == Wire(blocks) + "";
  }

  /** The data lines of a block are those of this payload. */
  predicate Carries(block: seq<WireLine>, payload: string) {
    Texts(block) == Lines(payload)
  }

  /** The blocks carry these payloads in order; blocks without data lines carry none. */
  ghost predicate Transmits(blocks: seq<seq<WireLine>>, payloads: seq<string>) {
    if blocks == [] then payloads == []
    else if Texts(blocks[0]) == [] then Transmits(blocks[1..], payloads)
    else
      && payloads != [] && Faithful(payloads[0]) && Carries(blocks[0], payloads[0])
      && Transmits(blocks[1..], payloads[1..])
  }

  lemma {:induction false} SaidArePayloads(blocks: seq<seq<WireLine>>, payloads: seq<string>)
    requires Transmits(blocks, payloads)
    ensures Said(blocks) == payloads
  {
    if blocks == [] {
    } else if Texts(blocks[0]) == [] {
      SaidArePayloads(blocks[1..], payloads);
    } else {
      SaidArePayloads(blocks[1..], payloads[1..]);
      JoinLines(payloads[0]);
      TrimmedStart(payloads[0]);
    }
  }

  /**
   * Blocks that carry faithful payloads, with blocks that carry nothing anywhere between them: the
   * same payloads come back in the same order, under every chunking.
   */
  lemma PayloadsComeBack(blocks: seq<seq<WireLine>>, payloads: seq<string>, chunks: seq<string>)
    requires AllWellFormed(blocks) && DropCR(Concat(chunks)) == Wire(blocks)
    requires Transmits(blocks, payloads)
    ensures Feed("", chunks) == Decoded(payloads, "")
  {
    AnyWritingRoundTrips(blocks, chunks);
    SaidArePayloads(blocks, payloads);
  }

  lemma JoinStarts(lines: seq<string>)
    requires lines != []
    ensures lines[0] <= Join(lines)
  {
  }

  lemma TailIsUnfinished(last: seq<WireLine>)
    requires WellFormed(last) && last[0].Data?
    ensures var body := Join(AllWritten(last));
            && NoBlank(body) && NoBlank(body + "\n") && IsData(body) && IsData(body + "\n")
            && body[|body| - 1] != '\n'
  {
    var lines, body := AllWritten(last), Join(AllWritten(last));
    BlockMeaning(last);
    assert forall i :: BlankAt(body, i) ==> BlankAt(body + "\n", i);
    assert lines[0] <= body by { JoinStarts(lines); }
    assert IsData(lines[0]);
    assert !BlankAt(body + "\n", |body| - 1);
  }

  lemma SaidOnce(block: seq<WireLine>)
    ensures var said := TrimNewlines(Join(Texts(block))); Said([block]) == if said == "" then [] else [said]
  {
    assert [block][1..] == [];
  }

  lemma FlushOfUnfinished(last: seq<WireLine>, missing: nat)
    requires WellFormed(last) && last[0].Data? && 1 <= missing <= 2
    ensures var tail := Join(AllWritten(last)) + if missing == 1 then "\n" else "";
            NoBlank(tail) && Flush(tail).events == Said([last])
  {
    hide Flush, Join, AllWritten, WellFormed, NoBlank, IsData, Texts, EventOf, TrimNewlines, Said;
    var body := Join(AllWritten(last));
    TailIsUnfinished(last);
    BlockMeaning(last);
    SaidOnce(last);
    if missing == 1 {
      FlushEmitsAtMostOne(body + "\n");
      assert (body + "\n")[..|body|] == body;
    } else {
      assert body + "" == body;
      FlushEmitsAtMostOne(body);
    }
  }

  /** The last event may lack its final one or two newlines, as long as it starts with a data line. */
  lemma UnfinishedWritingIsFlushed(blocks: seq<seq<WireLine>>, last: seq<WireLine>, missing: nat, chunks: seq<string>)
    requires AllWellFormed(blocks) && WellFormed(last) && last[0].Data? && 1 <= missing <= 2
    requires DropCR(Concat(chunks)) == Wire(blocks) + Join(AllWritten(last)) + if missing == 1 then "\n" else ""
    ensures var fed := Feed("", chunks);
            var flushed := Flush(fed.rest);
            fed.events == Said(blocks) && flushed.events == Said([last])
  {
    hide Wire, Said, Feed, Decode, Flush, Join, AllWritten, WellFormed, DropCR;
    var tail := Join(AllWritten(last)) + if missing == 1 then "\n" else "";
    ChunkIndependence("", chunks);
    FlushOfUnfinished(last, missing);
    assert "" + DropCR(Concat(chunks)) == Wire(blocks) + tail;
    DecodeWire(blocks, tail);
  }
}
