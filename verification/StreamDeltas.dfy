/**
 * The chat-completion packets of one stream event, and what they add to an answer.
 *
 * Reading JSON text is a parameter; a packet keeps just what the chunk parsers look at, with a
 * `Bad` case wherever the access would throw. An exception ends the event, but keeps the effects
 * made before it.
 */
module StreamDeltas {
  import opened JsonValues
  import opened Options

  datatype Field<T> = Absent | Bad | Good(value: T)

  /**
   * One entry of `tool_calls`. `index` is Bad also for an entry that is no object; `name` and
   * `arguments` are those of its `function`, absent when that is no object.
   */
  datatype Change = Change(index: Field<nat>, id: Option<Json>, kind: Option<Json>,
                           name: Option<Json>, arguments: Field<string>)

  /** `content` is Absent also when it is null. */
  datatype Body = NoDelta | Delta(content: Field<string>, changes: seq<Change>)

  datatype Packet = Packet(hasError: bool, body: Body)

  /** JSON text to packets: one packet for a value that is no array, none when it does not parse. */
  datatype Reading = Malformed | Packets(packets: seq<Packet>)
  type Reader = string -> Reading

  // ---- the answer being assembled ----

  datatype Slot = Slot(id: Json, kind: Json, name: Json, arguments: string)

  const FRESH := Slot(Str(""), Str("function"), Str(""), "")

  /** `heard` is what the text callback has received, call by call. */
  datatype Answer = Answer(text: string, calls: seq<Slot>, heard: seq<string>)

  const EMPTY := Answer("", [], [])

  /** A single visible effect on the answer. */
  datatype Effect =
    | Say(chunk: string)
    | Patch(index: nat, id: Option<Json>, kind: Option<Json>, name: Option<Json>, fragment: string)

  function Update(current: Json, change: Option<Json>): Json {
    if change.Some? then change.value else current
  }

  function Grow(calls: seq<Slot>, size: nat): seq<Slot> {
    if |calls| >= size then calls else calls + seq(size - |calls|, _ => FRESH)
  }

  function PatchSlot(slot: Slot, e: Effect): Slot
    requires e.Patch?
  {
    Slot(Update(slot.id, e.id), Update(slot.kind, e.kind), Update(slot.name, e.name), slot.arguments + e.fragment)
  }

  function Apply(a: Answer, e: Effect): Answer {
    match e
    case Say(chunk) => Answer(a.text + chunk, a.calls, a.heard + [chunk])
    case Patch(index, _, _, _, _) =>
      var calls := Grow(a.calls, index + 1);
      Answer(a.text, calls[index := PatchSlot(calls[index], e)], a.heard)
  }

  /** The effects one after the other. */
  function Replay(a: Answer, effects: seq<Effect>): Answer
    decreases |effects|
  {
    if effects == [] then a else Replay(Apply(a, effects[0]), effects[1..])
  }

  // ---- the effects of an event ----

  /** Effects up to the end, or up to the exception that was swallowed. */
  datatype Trail = Trail(effects: seq<Effect>, aborted: bool) {
    function Then(next: Trail): Trail {
      if aborted then this else Trail(effects + next.effects, next.aborted)
    }
  }

  const DONE := Trail([], false)

  function IndexOf(c: Change): nat {
    if c.index.Good? then c.index.value else 0
  }

  function FragmentOf(c: Change): string {
    if c.arguments.Good? then c.arguments.value else ""
  }

  function ChangeTrail(c: Change): Trail {
    if c.index.Bad? then Trail([], true)
    else Trail([Patch(IndexOf(c), c.id, c.kind, c.name, FragmentOf(c))], c.arguments.Bad?)
  }

  function ChangesTrail(cs: seq<Change>): Trail {
    if cs == [] then DONE else ChangeTrail(cs[0]).Then(ChangesTrail(cs[1..]))
  }

  function ContentTrail(content: Field<string>): Trail {
    match content
    case Absent => DONE
    case Bad => Trail([], true)
    case Good(chunk) => Trail([Say(chunk)], false)
  }

  function PacketTrail(p: Packet): Trail {
    match p.body
    case NoDelta => DONE
    case Delta(content, changes) => ContentTrail(content).Then(ChangesTrail(changes))
  }

  function PacketsTrail(ps: seq<Packet>): Trail {
    if ps == [] then DONE else PacketTrail(ps[0]).Then(PacketsTrail(ps[1..]))
  }

  /** The packets of an event text; the end marker has none. */
  function EventPackets(read: Reader, event: string): seq<Packet> {
    if event == "[DONE]" then [] else match read(event) case Malformed => [] case Packets(ps) => ps
  }

  function EventEffects(read: Reader, event: string): seq<Effect> {
    PacketsTrail(EventPackets(read, event)).effects
  }

  function StreamEffects(read: Reader, events: seq<string>): seq<Effect> {
    if events == [] then [] else EventEffects(read, events[0]) + StreamEffects(read, events[1..])
  }
}
