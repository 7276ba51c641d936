/**
 * The assembled answer in terms of the packets themselves: what takes effect of a stream, and which
 * text, slots, fragments and names the answer consists of.
 */
module StreamPackets {
  import opened JsonValues
  import opened Options
  import opened SseText
  import opened StreamDeltas
  import Laws = StreamLaws

  // ---- what takes effect ----

  /** The changes up to the first malformed one; of that one everything but its arguments, if it has an index. */
  function Effective(cs: seq<Change>): seq<Change> {
    if cs == [] || cs[0].index.Bad? then []
    else if cs[0].arguments.Bad? then [cs[0].(arguments := Absent)]
    else [cs[0]] + Effective(cs[1..])
  }

  /** Contents and changes of the packets of an event, up to the first malformed spot. */
  datatype Said = Said(contents: seq<string>, changes: seq<Change>)

  function Add(a: Said, b: Said): Said {
    Said(a.contents + b.contents, a.changes + b.changes)
  }

  predicate WellFormed(cs: seq<Change>) {
    forall c | c in cs :: !c.index.Bad? && !c.arguments.Bad?
  }

  function OfPackets(ps: seq<Packet>): Said {
    if ps == [] then Said([], [])
    else match ps[0].body
      case NoDelta => OfPackets(ps[1..])
      case Delta(content, changes) =>
        if content.Bad? then Said([], [])
        else
          var own := Said(if content.Good? then [content.value] else [], Effective(changes));
          if WellFormed(changes) then Add(own, OfPackets(ps[1..])) else own
  }

  /** All that is said in a stream; the end marker, and text that does not parse, say nothing. */
  function OfStream(read: Reader, events: seq<string>): Said {
    if events == [] then Said([], [])
    else if events[0] == "[DONE]" || read(events[0]).Malformed? then OfStream(read, events[1..])
    else Add(OfPackets(read(events[0]).packets), OfStream(read, events[1..]))
  }

  // ---- what the answer consists of ----

  /** The change is meant for slot i; without an index it is meant for the first one. */
  predicate MeantFor(c: Change, i: nat) {
    c.index == Good(i) || (c.index == Absent && i == 0)
  }

  /** All arguments for slot i, in order. */
  function Arguments(cs: seq<Change>, i: nat): string {
    if cs == [] then ""
    else (if MeantFor(cs[0], i) && cs[0].arguments.Good? then cs[0].arguments.value else "") + Arguments(cs[1..], i)
  }

  datatype Part = Id | Kind | Name

  function Pick(c: Change, part: Part): Option<Json> {
    match part case Id => c.id case Kind => c.kind case Name => c.name
  }

  /** The last value sent for a part of slot i, and the initial value if none was. */
  function LastSent(cs: seq<Change>, i: nat, part: Part, initial: Json): Json {
    if cs == [] then initial
    else
      var c := cs[|cs| - 1];
      if MeantFor(c, i) && Pick(c, part).Some? then Pick(c, part).value
      else LastSent(cs[..|cs| - 1], i, part, initial)
  }

  // ---- effects and changes ----

  function PatchOf(c: Change): Effect
    requires !c.index.Bad? && !c.arguments.Bad?
  {
    Patch(if c.index.Good? then c.index.value else 0, c.id, c.kind, c.name,
          if c.arguments.Good? then c.arguments.value else "")
  }

  function Patches(es: seq<Effect>): seq<Effect> {
    if es == [] then [] else (if es[0].Patch? then [es[0]] else []) + Patches(es[1..])
  }

  /** The effects say these contents, and their patches are these changes. */
  ghost predicate Realises(es: seq<Effect>, said: Said) {
    && Laws.Spoken(es) == said.contents && WellFormed(said.changes)
    && Patches(es) == seq(|said.changes|, i requires 0 <= i < |said.changes| => PatchOf(said.changes[i]))
  }

  lemma Associates<T>(x: seq<T>, y: seq<T>, z: seq<T>)
    ensures x + (y + z) == (x + y) + z
  {
  }

  lemma {:induction false} PatchesConcat(a: seq<Effect>, b: seq<Effect>)
    ensures Patches(a + b) == Patches(a) + Patches(b) && Laws.Spoken(a + b) == Laws.Spoken(a) + Laws.Spoken(b)
  {
    if a == [] {
      assert a + b == b;
    } else {
      var patch := if a[0].Patch? then [a[0]] else [];
      var say := if a[0].Say? then [a[0].chunk] else [];
      var rest := a[1..];
      assert (a + b)[1..] == rest + b && (a + b)[0] == a[0];
      PatchesConcat(rest, b);
      Associates(patch, Patches(rest), Patches(b));
      Associates(say, Laws.Spoken(rest), Laws.Spoken(b));
    }
  }

  lemma RealisesBoth(x: seq<Effect>, a: Said, y: seq<Effect>, b: Said)
    requires Realises(x, a) && Realises(y, b)
    ensures Realises(x + y, Add(a, b))
  {
    PatchesConcat(x, y);
  }

  lemma NothingRealised()
    ensures Realises([], Said([], []))
  {
  }

  lemma OneChange(c: Change)
    requires !c.index.Bad?
    ensures var t := ChangeTrail(c);
            && Realises(t.effects, Said([], [c.(arguments := if c.arguments.Bad? then Absent else c.arguments)]))
            && t.aborted == c.arguments.Bad?
  {
    var e := ChangeTrail(c).effects[0];
    assert ChangeTrail(c).effects == [e] && [e][1..] == [];
  }

  lemma RestSays(cs: seq<Change>)
    requires cs != [] && !cs[0].index.Bad?
    requires Realises(ChangeTrail(cs[0]).effects,
                      Said([], [cs[0].(arguments := if cs[0].arguments.Bad? then Absent else cs[0].arguments)]))
    requires ChangeTrail(cs[0]).aborted == cs[0].arguments.Bad?
    requires Realises(ChangesTrail(cs[1..]).effects, Said([], Effective(cs[1..])))
    ensures Realises(ChangesTrail(cs).effects, Said([], Effective(cs)))
  {
    hide Realises, ChangeTrail;
    if !cs[0].arguments.Bad? {
      RealisesBoth(ChangeTrail(cs[0]).effects, Said([], [cs[0]]),
                   ChangesTrail(cs[1..]).effects, Said([], Effective(cs[1..])));
      assert Add(Said([], [cs[0]]), Said([], Effective(cs[1..]))) == Said([], Effective(cs));
    }
  }

  lemma {:induction false} ChangesSay(cs: seq<Change>)
    ensures Realises(ChangesTrail(cs).effects, Said([], Effective(cs)))
    ensures ChangesTrail(cs).aborted == !WellFormed(cs)
  {
    if cs == [] {
      NothingRealised();
    } else if cs[0].index.Bad? {
      assert cs[0] in cs;
      NothingRealised();
    } else {
      hide Realises;
      OneChange(cs[0]);
      ChangesSay(cs[1..]);
      assert cs == [cs[0]] + cs[1..];
      RestSays(cs);
    }
  }

  lemma ContentSays(content: Field<string>)
    requires !content.Bad?
    ensures Realises(ContentTrail(content).effects, Said(if content.Good? then [content.value] else [], []))
  {
    if content.Good? {
      assert [Say(content.value)][1..] == [];
    }
  }

  lemma DeltaSays(content: Field<string>, changes: seq<Change>)
    requires !content.Bad?
    ensures var t := PacketTrail(Packet(false, Delta(content, changes)));
            && Realises(t.effects, Said(if content.Good? then [content.value] else [], Effective(changes)))
            && t.aborted == !WellFormed(changes)
  {
    hide Realises, ChangesTrail, Effective;
    ChangesSay(changes);
    ContentSays(content);
    var own := Said(if content.Good? then [content.value] else [], []);
    RealisesBoth(ContentTrail(content).effects, own, ChangesTrail(changes).effects, Said([], Effective(changes)));
    assert own.contents + [] == own.contents && [] + Effective(changes) == Effective(changes);
  }

  lemma RealisesMore(x: seq<Effect>, a: Said, y: seq<Effect>, b: Said)
    ensures Realises(x, a) && Realises(y, b) ==> Realises(x + y, Add(a, b))
  {
    hide Realises;
    if Realises(x, a) && Realises(y, b) { RealisesBoth(x, a, y, b); }
  }

  lemma {:induction false} PacketsSay(ps: seq<Packet>)
    ensures Realises(PacketsTrail(ps).effects, OfPackets(ps))
  {
    if ps == [] {
      NothingRealised();
    } else {
      hide Realises, WellFormed, Effective;
      PacketsSay(ps[1..]);
      match ps[0].body {
        case NoDelta =>
          Laws.ThenDone(PacketsTrail(ps[1..]));
        case Delta(content, changes) =>
          if content.Bad? {
            NothingRealised();
          } else {
            DeltaSays(content, changes);
            var own := Said(if content.Good? then [content.value] else [], Effective(changes));
            RealisesMore(PacketTrail(ps[0]).effects, own, PacketsTrail(ps[1..]).effects, OfPackets(ps[1..]));
          }
      }
    }
  }

  lemma NoPackets()
    ensures PacketsTrail([]).effects == []
  {
  }

  lemma EventSays(read: Reader, event: string)
    ensures Realises(EventEffects(read, event), if event == "[DONE]" || read(event).Malformed? then Said([], [])
                                                else OfPackets(read(event).packets))
  {
    hide Realises;
    NothingRealised();
    PacketsSay(EventPackets(read, event));
    NoPackets();
  }

  lemma {:induction false} StreamSays(read: Reader, events: seq<string>)
    ensures Realises(StreamEffects(read, events), OfStream(read, events))
  {
    if events == [] {
      NothingRealised();
    } else {
      hide Realises, OfPackets, PacketsTrail;
      StreamSays(read, events[1..]);
      EventSays(read, events[0]);
      var own := if events[0] == "[DONE]" || read(events[0]).Malformed? then Said([], [])
                 else OfPackets(read(events[0]).packets);
      RealisesBoth(EventEffects(read, events[0]), own, StreamEffects(read, events[1..]), OfStream(read, events[1..]));
      var rest := OfStream(read, events[1..]);
      assert [] + rest.contents == rest.contents && [] + rest.changes == rest.changes;
    }
  }

  // ---- the answer ----

  function PatchesOf(cs: seq<Change>): seq<Effect>
    requires WellFormed(cs)
  {
    seq(|cs|, i requires 0 <= i < |cs| => PatchOf(cs[i]))
  }

  /** Slots depend on the patches only. */
  lemma {:induction false} PatchesDecide(es: seq<Effect>, i: nat)
    ensures Laws.Fragments(Patches(es), i) == Laws.Fragments(es, i)
    ensures forall part :: Laws.Latest(Patches(es), i, part) == Laws.Latest(es, i, part)
    ensures Laws.Width(Patches(es)) == Laws.Width(es)
  {
    if es == [] {
    } else {
      PatchesDecide(es[1..], i);
      if es[0].Patch? {
        assert Patches(es)[0] == es[0] && Patches(es)[1..] == Patches(es[1..]);
      } else {
        assert Patches(es) == Patches(es[1..]);
        assert "" + Laws.Fragments(es[1..], i) == Laws.Fragments(es[1..], i);
      }
    }
  }

  lemma {:induction false} ArgumentsOfPatches(cs: seq<Change>, i: nat)
    requires WellFormed(cs)
    ensures Laws.Fragments(PatchesOf(cs), i) == Arguments(cs, i)
  {
    if cs == [] {
    } else {
      assert cs[0] in cs && WellFormed(cs[1..]);
      assert PatchesOf(cs)[0] == PatchOf(cs[0]) && PatchesOf(cs)[1..] == PatchesOf(cs[1..]);
      ArgumentsOfPatches(cs[1..], i);
    }
  }

  function LawPart(part: Part): Laws.Part {
    match part case Id => Laws.Id case Kind => Laws.Kind case Name => Laws.Name
  }

  lemma {:induction false} LatestSnoc(es: seq<Effect>, e: Effect, i: nat, part: Laws.Part)
    ensures Laws.Latest(es + [e], i, part) ==
            if Laws.Hits(e, i) && Laws.Pick(e, part).Some? then Laws.Pick(e, part) else Laws.Latest(es, i, part)
  {
    if es == [] {
      assert [e][1..] == [] && es + [e] == [e];
    } else {
      assert (es + [e])[1..] == es[1..] + [e] && (es + [e])[0] == es[0];
      LatestSnoc(es[1..], e, i, part);
    }
  }

  lemma {:induction false} LastSentOfPatches(cs: seq<Change>, i: nat, part: Part, initial: Json)
    requires WellFormed(cs)
    ensures Update(initial, Laws.Latest(PatchesOf(cs), i, LawPart(part))) == LastSent(cs, i, part, initial)
  {
    if cs == [] {
    } else {
      hide Laws.Latest;
      var front, c := cs[..|cs| - 1], cs[|cs| - 1];
      assert c in cs && WellFormed(front);
      assert PatchesOf(cs) == PatchesOf(front) + [PatchOf(c)];
      LatestSnoc(PatchesOf(front), PatchOf(c), i, LawPart(part));
      LastSentOfPatches(front, i, part, initial);
    }
  }

  /** One slot for every index up to the largest that is meant. */
  lemma {:induction false} WidthOfPatches(cs: seq<Change>)
    requires WellFormed(cs)
    ensures forall c, i: nat :: c in cs && MeantFor(c, i) ==> i < Laws.Width(PatchesOf(cs))
    ensures Laws.Width(PatchesOf(cs)) > 0 ==> exists c :: c in cs && MeantFor(c, Laws.Width(PatchesOf(cs)) - 1)
  {
    if cs == [] {
    } else {
      assert cs[0] in cs && WellFormed(cs[1..]);
      assert PatchesOf(cs)[0] == PatchOf(cs[0]) && PatchesOf(cs)[1..] == PatchesOf(cs[1..]);
      WidthOfPatches(cs[1..]);
      assert forall c :: c in cs ==> c == cs[0] || c in cs[1..];
      assert forall c :: c in cs[1..] ==> c in cs;
      var w := Laws.Width(PatchesOf(cs));
      if w > 0 {
        if w == Laws.Width(PatchesOf(cs[1..])) {
          var c :| c in cs[1..] && MeantFor(c, w - 1);
        } else {
          assert MeantFor(cs[0], w - 1);
        }
      }
    }
  }

  /** A slot with its arguments in order and the last id, type and name that were sent for it. */
  ghost predicate SlotSays(slot: Slot, cs: seq<Change>, i: nat) {
    && slot.arguments == Arguments(cs, i)
    && slot.id == LastSent(cs, i, Id, Str(""))
    && slot.kind == LastSent(cs, i, Kind, Str("function"))
    && slot.name == LastSent(cs, i, Name, Str(""))
  }

  /**
   * The answer of every stream, also of one with malformed packets: its text is what was said, with
   * a slot for each index up to the largest that was meant, and in each slot what was meant for it.
   */
  lemma AnswerOfStream(read: Reader, events: seq<string>)
    ensures var said, answer := OfStream(read, events), Replay(EMPTY, StreamEffects(read, events));
            && answer.heard == said.contents && answer.text == Concat(said.contents)
            && (forall i :: 0 <= i < |answer.calls| ==> SlotSays(answer.calls[i], said.changes, i))
            && (forall c, i: nat :: c in said.changes && MeantFor(c, i) ==> i < |answer.calls|)
            && (answer.calls != [] ==> exists c :: c in said.changes && MeantFor(c, |answer.calls| - 1))
  {
    hide Replay, StreamEffects, OfStream, Laws.Fragments, Laws.Latest, Laws.Width, Arguments, LastSent, Patches;
    var es, said := StreamEffects(read, events), OfStream(read, events);
    var answer := Replay(EMPTY, es);
    StreamSays(read, events);
    Laws.AnswerInClosedForm(es);
    assert Patches(es) == PatchesOf(said.changes);
    PatchesDecide(es, 0);
    WidthOfPatches(said.changes);
    forall i | 0 <= i < |answer.calls| ensures SlotSays(answer.calls[i], said.changes, i) {
      PatchesDecide(es, i);
      ArgumentsOfPatches(said.changes, i);
      LastSentOfPatches(said.changes, i, Id, Str(""));
      LastSentOfPatches(said.changes, i, Kind, Str("function"));
      LastSentOfPatches(said.changes, i, Name, Str(""));
    }
  }
}
