/**
 * The event-stream encoding (sections 9.2.5 and 9.2.6 of the WHATWG HTML Standard) and the
 * decoder undo each other, exactly on the payloads that start with a visible first line.
 */
module SseRoundTrip {
  import opened SseText
  import opened SseEvents
  import opened SseDecoding

  function Tagged(lines: seq<string>): seq<string> {
    seq(|lines|, i requires 0 <= i < |lines| => "data: " + lines[i])
  }

  /** The `data:` lines of one payload, without the newline that ends the last one. */
  function Body(payload: string): string {
    Join(Tagged(Lines(payload)))
  }

  /** One event on the wire: its data lines and a blank line. */
  function Encode(payload: string): string {
    Body(payload) + "\n\n"
  }

  function EncodeAll(payloads: seq<string>): string {
    if payloads == [] then "" else Encode(payloads[0]) + EncodeAll(payloads[1..])
  }

  /** A payload without its leading newlines. */
  function TrimNewlines(p: string): string {
    if p != "" && p[0] == '\n' then TrimNewlines(p[1..]) else p
  }

  /** What of the payloads the decoder gives back. */
  function Survivors(payloads: seq<string>): seq<string> {
    if payloads == [] then []
    else
      var p := TrimNewlines(DropCR(payloads[0]));
      (if p == "" then [] else [p]) + Survivors(payloads[1..])
  }

  predicate Faithful(payload: string) {
    payload != "" && payload[0] != '\n' && '\r' !in payload
  }

  // ---- one payload ----

  lemma {:induction false} NonEmptyLinesNoBlank(lines: seq<string>)
    requires |lines| >= 1 && OneLiners(lines)
    requires forall i :: 0 <= i < |lines| ==> lines[i] != ""
    ensures NoBlank(Join(lines) + "\n")
    ensures Join(lines) != "" && Join(lines)[0] == lines[0][0]
  {
    if |lines| == 1 {
      assert forall i :: 0 <= i < |lines[0]| ==> (lines[0] + "\n")[i] == lines[0][i];
    } else {
      var first, rest := lines[0], Join(lines[1..]) + "\n";
      NonEmptyLinesNoBlank(lines[1..]);
      var all := Join(lines) + "\n";
      assert all == first + "\n" + rest;
      assert lines[1][0] in lines[1];
      forall i ensures !BlankAt(all, i) {
        if 0 <= i < |first| {
          assert all[i] == first[i];
        } else if |first| < i < |all| - 1 {
          assert all[i] == rest[i - |first| - 1] && all[i + 1] == rest[i - |first|];
          assert !BlankAt(rest, i - |first| - 1);
        }
      }
    }
  }

  lemma PayloadOfTagged(text: string)
    requires '\r' !in text
    ensures LinePayload(StripCR("data: " + text)) == [text]
  {
    var line := "data: " + text;
    if text != "" { assert line[|line| - 1] == text[|text| - 1]; }
    assert line[5..] == " " + text && Payload(line) == text;
  }

  lemma {:induction false} PayloadsOfTagged(lines: seq<string>)
    requires forall i :: 0 <= i < |lines| ==> '\r' !in lines[i]
    ensures Payloads(Tagged(lines)) == lines
  {
    if lines == [] {
    } else {
      hide LinePayload, StripCR;
      var line := "data: " + lines[0];
      PayloadsOfTagged(lines[1..]);
      PayloadOfTagged(lines[0]);
      assert Tagged(lines)[0] == line && Tagged(lines)[1..] == Tagged(lines[1..]);
      assert lines == [lines[0]] + lines[1..];
    }
  }

  lemma {:induction false} JoinTrimmed(p: string)
    ensures Join(DropLeadingEmpty(Lines(p))) == TrimNewlines(p)
    decreases |p|
  {
    if p != "" && p[0] == '\n' {
      assert p == "" + "\n" + p[1..];
      LinesCons("", p[1..]);
      assert Lines(p)[1..] == Lines(p[1..]);
      JoinTrimmed(p[1..]);
    } else {
      JoinLines(p);
      assert p != "" ==> Lines(p)[0] != "";
      if p == "" { assert Lines("") == [""] && DropLeadingEmpty([""]) == []; }
    }
  }

  lemma {:induction false} NotInJoin(lines: seq<string>, c: char)
    requires c !in Join(lines)
    ensures forall i :: 0 <= i < |lines| ==> c !in lines[i]
  {
    if |lines| <= 1 {
    } else {
      NotInJoin(lines[1..], c);
    }
  }

  lemma BodyMeaning(p: string)
    requires '\r' !in p
    ensures NoBlank(Body(p) + "\n") && EventOf(Body(p)) == TrimNewlines(p)
    ensures IsData(Body(p)) && Body(p)[|Body(p)| - 1] != '\n'
  {
    JoinLines(p);
    var lines, tagged := Lines(p), Tagged(Lines(p));
    assert OneLiners(tagged);
    NonEmptyLinesNoBlank(tagged);
    LinesJoin(tagged);
    NotInJoin(lines, '\r');
    PayloadsOfTagged(lines);
    JoinTrimmed(p);
    assert tagged[0] <= Body(p);
    assert !BlankAt(Body(p) + "\n", |Body(p)| - 1);
  }

  // ---- carriage returns anywhere on the wire ----

  function Stripped(texts: seq<string>): seq<string> {
    seq(|texts|, i requires 0 <= i < |texts| => DropCR(texts[i]))
  }

  lemma {:induction false} DropCRAddsNothing(s: string, c: char)
    requires c !in s
    ensures c !in DropCR(s)
  {
    if s == "" {
    } else {
      DropCRAddsNothing(s[1..], c);
    }
  }

  lemma {:induction false} DropCRJoin(lines: seq<string>)
    ensures DropCR(Join(lines)) == Join(Stripped(lines))
  {
    if |lines| <= 1 {
    } else {
      DropCRConcat(lines[0] + "\n", Join(lines[1..]));
      DropCRConcat(lines[0], "\n");
      DropCRJoin(lines[1..]);
      assert Stripped(lines)[1..] == Stripped(lines[1..]);
      assert DropCR("\n") == "\n" by { DropCRIdentity("\n"); }
    }
  }

  lemma DropCRLines(p: string)
    ensures Lines(DropCR(p)) == Stripped(Lines(p))
  {
    JoinLines(p);
    DropCRJoin(Lines(p));
    forall i | 0 <= i < |Lines(p)| ensures '\n' !in Stripped(Lines(p))[i] {
      DropCRAddsNothing(Lines(p)[i], '\n');
    }
    LinesJoin(Stripped(Lines(p)));
  }

  lemma DropCRTagged(lines: seq<string>)
    ensures Stripped(Tagged(lines)) == Tagged(Stripped(lines))
  {
    hide DropCR;
    DropCRIdentity("data: ");
    forall i | 0 <= i < |lines| ensures Stripped(Tagged(lines))[i] == Tagged(Stripped(lines))[i] {
      DropCRConcat("data: ", lines[i]);
    }
  }

  lemma DropCREncode(p: string)
    ensures DropCR(Encode(p)) == Encode(DropCR(p))
  {
    hide DropCR, Join, Lines;
    DropCRLines(p);
    DropCRJoin(Tagged(Lines(p)));
    DropCRTagged(Lines(p));
    DropCRConcat(Body(p), "\n\n");
    DropCRIdentity("\n\n");
  }

  lemma {:induction false} DropCREncodeAll(payloads: seq<string>)
    ensures DropCR(EncodeAll(payloads)) == EncodeAll(Stripped(payloads))
  {
    if payloads == [] {
    } else {
      DropCRConcat(Encode(payloads[0]), EncodeAll(payloads[1..]));
      DropCREncode(payloads[0]);
      DropCREncodeAll(payloads[1..]);
      assert Stripped(payloads)[1..] == Stripped(payloads[1..]);
    }
  }

  // ---- lists of payloads ----

  function Bodies(payloads: seq<string>): seq<string> {
    seq(|payloads|, i requires 0 <= i < |payloads| => Body(payloads[i]))
  }

  lemma {:induction false} EncodingIsFramed(payloads: seq<string>)
    ensures EncodeAll(payloads) == Frame(Bodies(payloads), "")
  {
    if payloads == [] {
    } else {
      EncodingIsFramed(payloads[1..]);
      assert Bodies(payloads)[1..] == Bodies(payloads[1..]);
    }
  }

  lemma {:induction false} EventsOfBodies(payloads: seq<string>)
    ensures Events(Bodies(Stripped(payloads))) == Survivors(payloads)
  {
    hide Body, EventOf, TrimNewlines, DropCR, IsData;
    if payloads == [] {
    } else {
      var bodies, rest := Bodies(Stripped(payloads)), Bodies(Stripped(payloads[1..]));
      assert bodies[0] == Body(DropCR(payloads[0])) && bodies[1..] == rest;
      BodyMeaning(DropCR(payloads[0]));
      EventsOfBodies(payloads[1..]);
    }
  }

  /** The blocks of an encoding, whatever unfinished text follows it. */
  lemma DecodeEncoding(payloads: seq<string>, tail: string)
    requires NoBlank(tail)
    ensures var wire := EncodeAll(Stripped(payloads)) + tail;
            Segment(wire) == Segments(Bodies(Stripped(payloads)), tail)
    ensures Decode(EncodeAll(Stripped(payloads)) + tail) == Decoded(Survivors(payloads), tail)
  {
    var bodies := Bodies(Stripped(payloads));
    EncodingIsFramed(Stripped(payloads));
    FrameAppend(bodies, "", tail);
    forall i | 0 <= i < |payloads| ensures NoBlank(bodies[i] + "\n") {
      BodyMeaning(DropCR(payloads[i]));
    }
    assert "" + tail == tail;
    SegmentsAreUnique(EncodeAll(Stripped(payloads)) + tail, Segments(bodies, tail));
    EventsOfBodies(payloads);
  }

  /** Any division of an encoding into chunks, with carriage returns anywhere, decodes to the payloads. */
  lemma RoundTrip(payloads: seq<string>, chunks: seq<string>)
    requires DropCR(Concat(chunks)) == DropCR(EncodeAll(payloads))
    ensures Feed("", chunks) == Decoded(Survivors(payloads), "")
  {
    ChunkIndependence("", chunks);
    DropCREncodeAll(payloads);
    DecodeEncoding(payloads, "");
    assert "" + DropCR(Concat(chunks)) == EncodeAll(Stripped(payloads)) + "";
  }

  lemma {:induction false} TrimmedStart(p: string)
    ensures TrimNewlines(p) == p <==> p == "" || p[0] != '\n'
    ensures |TrimNewlines(p)| <= |p|
    ensures '\r' !in p ==> '\r' !in TrimNewlines(p)
  {
    if p == "" || p[0] != '\n' {
    } else {
      TrimmedStart(p[1..]);
    }
  }

  lemma {:induction false} SurvivorsAreAll(payloads: seq<string>)
    ensures |Survivors(payloads)| <= |payloads|
    ensures Survivors(payloads) == payloads <==> forall i :: 0 <= i < |payloads| ==> Faithful(payloads[i])
  {
    if payloads == [] {
    } else {
      var first, rest := payloads[0], payloads[1..];
      SurvivorsAreAll(rest);
      TrimmedStart(DropCR(first));
      var kept := TrimNewlines(DropCR(first));
      assert Survivors(payloads) == (if kept == "" then [] else [kept]) + Survivors(rest);
      if kept == first != "" {
        DropCRIdentity(first);
        TrimmedStart(first);
        assert Faithful(first) && payloads == [first] + rest;
      } else if Faithful(first) {
        DropCRIdentity(first);
        assert false;
      } else if kept != "" {
        assert Survivors(payloads)[0] == kept;
      }
    }
  }

  /** The decoder gives back exactly what was encoded just when every payload is faithful. */
  lemma RoundTripExactly(payloads: seq<string>, chunks: seq<string>)
    requires DropCR(Concat(chunks)) == DropCR(EncodeAll(payloads))
    ensures Feed("", chunks).events == payloads <==> forall i :: 0 <= i < |payloads| ==> Faithful(payloads[i])
  {
    RoundTrip(payloads, chunks);
    SurvivorsAreAll(payloads);
  }

  function UnfinishedTail(last: string, missing: nat): string {
    if missing == 1 then Body(DropCR(last)) + "\n" else Body(DropCR(last))
  }

  lemma TruncatedWire(payloads: seq<string>, last: string, missing: nat, wire: string)
    requires 1 <= missing <= 2
    requires wire + "\n\n"[..missing] == DropCR(EncodeAll(payloads) + Encode(last))
    ensures wire == EncodeAll(Stripped(payloads)) + UnfinishedTail(last, missing)
  {
    hide EncodeAll, Body, DropCR;
    DropCRConcat(EncodeAll(payloads), Encode(last));
    DropCREncodeAll(payloads);
    DropCREncode(last);
    var full := EncodeAll(Stripped(payloads)) + (Body(DropCR(last)) + "\n\n");
    assert wire + "\n\n"[..missing] == full;
    assert wire == (wire + "\n\n"[..missing])[..|wire|] == full[..|full| - missing];
  }

  lemma StillData(body: string)
    requires IsData(body)
    ensures IsData(body + "\n")
  {
  }

  lemma TailMeaning(last: string, missing: nat)
    requires 1 <= missing <= 2
    ensures NoBlank(UnfinishedTail(last, missing))
    ensures Flush(UnfinishedTail(last, missing)) ==
            Decoded(Survivors([last]), if missing == 1 then "\n" else "")
  {
    hide Body, DropCR, Flush, EventOf, TrimNewlines, IsData;
    var body, tail := Body(DropCR(last)), UnfinishedTail(last, missing);
    BodyMeaning(DropCR(last));
    assert NoBlank(body) by {
      forall i ensures !BlankAt(body, i) { assert !BlankAt(body + "\n", i); }
    }
    StillData(body);
    FlushEmitsAtMostOne(tail);
    assert (if missing == 1 then tail[..|tail| - 1] else tail) == body;
    assert Survivors([last][1..]) == [];
  }

  /**
   * A server that leaves out the last one or two newlines loses nothing: the events are the same,
   * at most one of them comes from the end of the stream, and at most one newline stays behind.
   */
  lemma TruncatedRoundTrip(payloads: seq<string>, last: string, missing: nat, chunks: seq<string>)
    requires 1 <= missing <= 2
    requires DropCR(Concat(chunks)) + "\n\n"[..missing] == DropCR(EncodeAll(payloads) + Encode(last))
    ensures var fed := Feed("", chunks);
            var flushed := Flush(fed.rest);
            && fed.events == Survivors(payloads)
            && flushed.events == Survivors([last])
            && flushed.rest == (if missing == 1 then "\n" else "")
  {
    hide EncodeAll, Encode, Feed, Decode, Survivors, Flush;
    var tail := UnfinishedTail(last, missing);
    var wire := DropCR(Concat(chunks));
    TruncatedWire(payloads, last, missing, wire);
    TailMeaning(last, missing);
    ChunkIndependence("", chunks);
    assert "" + wire == wire;
    DecodeEncoding(payloads, tail);
  }
}
