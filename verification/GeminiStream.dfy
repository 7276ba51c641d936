/** The Gemini chunk parser: response parts are kept whole, and text and calls are read off them. */
module GeminiStream {
  import opened Options
  import opened JsonValues
  import opened SseText
  import opened StreamDeltas
  import Laws = StreamLaws

  /** A response part: its text, Bad when it is no string, and its function call, if it has one. */
  datatype Part = Part(text: Field<string>, call: Option<Json>)

  /** The parts of each packet's first candidate; no packets for text that does not parse. */
  type PartReader = string -> seq<seq<Part>>

  function Flat(packets: seq<seq<Part>>): seq<Part> {
    if packets == [] then [] else packets[0] + Flat(packets[1..])
  }

  /** What is kept of an event: all parts up to and with the first one whose text is bad. */
  function Kept(parts: seq<Part>): seq<Part> {
    if parts == [] then [] else [parts[0]] + if parts[0].text.Bad? then [] else Kept(parts[1..])
  }

  predicate Sound(parts: seq<Part>) {
    forall p | p in parts :: !p.text.Bad?
  }

  function KeptOf(read: PartReader, events: seq<string>): seq<Part> {
    if events == [] then [] else Kept(Flat(read(events[0]))) + KeptOf(read, events[1..])
  }

  function TextOf(p: Part): seq<string> {
    if p.text.Good? then [p.text.value] else []
  }

  function Texts(parts: seq<Part>): seq<string> {
    if parts == [] then [] else TextOf(parts[0]) + Texts(parts[1..])
  }

  function CallOf(p: Part): seq<Json> {
    if p.call.Some? && !p.text.Bad? then [p.call.value] else []
  }

  /** The calls of the parts; a part with a bad text was given up before its call was looked at. */
  function CallsIn(parts: seq<Part>): seq<Json> {
    if parts == [] then [] else CallOf(parts[0]) + CallsIn(parts[1..])
  }

  lemma Associates<T>(x: seq<T>, y: seq<T>, z: seq<T>)
    ensures x + (y + z) == (x + y) + z
  {
  }

  lemma {:induction false} PartsConcat(a: seq<Part>, b: seq<Part>)
    ensures Texts(a + b) == Texts(a) + Texts(b) && CallsIn(a + b) == CallsIn(a) + CallsIn(b)
  {
    if a == [] {
      assert a + b == b;
    } else {
      hide TextOf, CallOf;
      var rest := a[1..];
      assert (a + b)[1..] == rest + b && (a + b)[0] == a[0];
      PartsConcat(rest, b);
      Associates(TextOf(a[0]), Texts(rest), Texts(b));
      Associates(CallOf(a[0]), CallsIn(rest), CallsIn(b));
    }
  }

  lemma OnePart(p: Part)
    ensures Texts([p]) == TextOf(p) && CallsIn([p]) == CallOf(p)
  {
    assert [p][1..] == [];
  }

  lemma SoundStep(a: seq<Part>)
    requires a != []
    ensures Sound(a) <==> !a[0].text.Bad? && Sound(a[1..])
  {
    assert a == [a[0]] + a[1..];
  }

  /** Cutting off at the first bad part, piece by piece. */
  lemma {:induction false} KeptConcat(a: seq<Part>, b: seq<Part>)
    ensures Kept(a + b) == if Sound(a) then a + Kept(b) else Kept(a)
  {
    if a == [] {
      assert a + b == b;
    } else {
      var rest := a[1..];
      assert (a + b)[1..] == rest + b && (a + b)[0] == a[0];
      assert a == [a[0]] + rest;
      KeptConcat(rest, b);
      SoundStep(a);
      if Sound(a) {
        Associates([a[0]], rest, Kept(b));
      }
    }
  }

  lemma {:induction false} FlatConcat(a: seq<seq<Part>>, b: seq<seq<Part>>)
    ensures Flat(a + b) == Flat(a) + Flat(b)
  {
    if a == [] {
      assert a + b == b;
    } else {
      assert (a + b)[1..] == a[1..] + b && (a + b)[0] == a[0];
      FlatConcat(a[1..], b);
      assert a[0] + (Flat(a[1..]) + Flat(b)) == a[0] + Flat(a[1..]) + Flat(b);
    }
  }

  lemma {:induction false} KeptOfSnoc(read: PartReader, events: seq<string>, event: string)
    ensures KeptOf(read, events + [event]) == KeptOf(read, events) + Kept(Flat(read(event)))
  {
    if events == [] {
      assert [event][1..] == [];
    } else {
      assert (events + [event])[1..] == events[1..] + [event];
      KeptOfSnoc(read, events[1..], event);
    }
  }

  lemma {:induction false} SoundIsKept(parts: seq<Part>)
    requires Sound(parts)
    ensures Kept(parts) == parts
  {
    if parts == [] {
    } else {
      SoundIsKept(parts[1..]);
    }
  }

  /** The packets of an event split anywhere into two events, unless the first one breaks off. */
  lemma SplitGeminiEvent(read: PartReader, event: string, one: string, two: string)
    requires read(event) == read(one) + read(two)
    ensures KeptOf(read, [event]) ==
            if Sound(Flat(read(one))) then KeptOf(read, [one, two]) else KeptOf(read, [one])
  {
    FlatConcat(read(one), read(two));
    KeptConcat(Flat(read(one)), Flat(read(two)));
    assert [one, two] == [one] + [two] && [event] == [] + [event] && [one] == [] + [one];
    KeptOfSnoc(read, [], event);
    KeptOfSnoc(read, [], one);
    KeptOfSnoc(read, [one], two);
    if Sound(Flat(read(one))) { SoundIsKept(Flat(read(one))); }
  }

  lemma FlatNothing()
    ensures Flat([]) == [] && Sound([])
  {
  }

  lemma FlatOne(packet: seq<Part>)
    ensures Flat([packet]) == packet
  {
    assert [packet][1..] == [];
    assert packet + [] == packet;
  }

  /** The event up to packet i, and what is kept of it all when that packet breaks off. */
  lemma Around(packets: seq<seq<Part>>, i: nat)
    requires i < |packets|
    ensures Flat(packets[..i + 1]) == Flat(packets[..i]) + packets[i]
    ensures Sound(Flat(packets[..i])) && Sound(packets[i]) ==> Sound(Flat(packets[..i + 1]))
    ensures Sound(Flat(packets[..i])) && !Sound(packets[i]) ==>
              Kept(Flat(packets)) == Flat(packets[..i]) + Kept(packets[i])
  {
    hide Flat, Kept;
    Laws.SplitAt(packets, i);
    var front, rest := packets[..i], packets[i + 1..];
    FlatConcat(front, [packets[i]]);
    FlatConcat(packets[..i + 1], rest);
    FlatOne(packets[i]);
    KeptConcat(Flat(front) + packets[i], Flat(rest));
    KeptConcat(Flat(front), packets[i]);
    if !Sound(packets[i]) {
      var p :| p in packets[i] && p.text.Bad?;
      assert p in Flat(front) + packets[i];
    }
  }

  /** Where the first bad part is met, everything up to it is what is kept. */
  lemma KeptUpTo(packet: seq<Part>, j: nat)
    requires j < |packet| && Sound(packet[..j])
    ensures packet[j].text.Bad? ==> !Sound(packet) && Kept(packet) == packet[..j] + [packet[j]]
    ensures !packet[j].text.Bad? ==> Sound(packet[..j + 1])
  {
    Laws.SplitAt(packet, j);
    var front, one, rest := packet[..j], [packet[j]], packet[j + 1..];
    KeptConcat(front + one, rest);
    KeptConcat(front, one);
    assert packet[j] in packet;
  }

  class GeminiAccumulator {
    var text: string
    var parts: seq<Part>
    var calls: seq<Json>
    var heard: seq<string>

    /** The parts sent back to the model are exactly those the text and the calls were read from. */
    ghost predicate Valid()
      reads this
    {
      text == Concat(heard) && heard == Texts(parts) && calls == CallsIn(parts)
    }

    constructor ()
      ensures Valid() && parts == []
    {
      text, parts, calls, heard := "", [], [], [];
    }

    /** One part; false stands for an exception. */
    method TakePart(part: Part) returns (ok: bool)
      requires Valid()
      modifies this
      ensures Valid() && parts == old(parts) + [part] && ok == !part.text.Bad?
      ensures text == old(text) + if part.text.Good? then part.text.value else ""
      ensures heard == old(heard) + if part.text.Good? then [part.text.value] else []
      ensures calls == old(calls) + if ok && part.call.Some? then [part.call.value] else []
    {
      PartsConcat(parts, [part]);
      OnePart(part);
      parts := parts + [part];
      if part.text.Bad? {
        return false;
      }
      if part.text.Good? {
        ConcatSnoc(heard, part.text.value);
        text := text + part.text.value;
        heard := heard + [part.text.value];
      }
      if part.call.Some? {
        calls := calls + [part.call.value];
      }
      ok := true;
    }

    /** The parts of one packet, up to an exception. */
    method TakeParts(packet: seq<Part>) returns (ok: bool)
      requires Valid()
      modifies this
      ensures Valid() && parts == old(parts) + Kept(packet) && ok == Sound(packet)
    {
      hide Valid, Kept;
      assert packet[..0] == [];
      for j := 0 to |packet|
        invariant Valid() && Sound(packet[..j]) && parts == old(parts) + packet[..j]
      {
        Laws.SplitAt(packet, j);
        KeptUpTo(packet, j);
        Associates(old(parts), packet[..j], [packet[j]]);
        ok := TakePart(packet[j]);
        if !ok {
          return;
        }
      }
      assert packet[..|packet|] == packet;
      SoundIsKept(packet);
      ok := true;
    }

    /** One event for a Gemini stream. */
    method ParseGeminiChunk(read: PartReader, event: string)
      requires Valid()
      modifies this
      ensures Valid() && parts == old(parts) + Kept(Flat(read(event)))
    {
      hide Valid, Kept, Flat, Sound;
      var packets := read(event);
      FlatNothing();
      assert packets[..0] == [];
      for i := 0 to |packets|
        invariant Valid() && Sound(Flat(packets[..i])) && parts == old(parts) + Flat(packets[..i])
      {
        Around(packets, i);
        KeptConcat(Flat(packets[..i]), packets[i]);
        Associates(old(parts), Flat(packets[..i]), Kept(packets[i]));
        var ok := TakeParts(packets[i]);
        if !ok {
          return;
        }
        SoundIsKept(packets[i]);
      }
      assert packets[..|packets|] == packets;
      SoundIsKept(Flat(packets));
    }
  }
}
