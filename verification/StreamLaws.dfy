/** Laws of the assembled answer, for every stream, also one that breaks off in the middle. */
module StreamLaws {
  import opened JsonValues
  import opened Options
  import opened SseText
  import opened StreamDeltas

  // ---- replaying in pieces ----

  lemma ReplayOne(a: Answer, e: Effect)
    ensures Replay(a, [e]) == Apply(a, e)
  {
    assert [e][1..] == [];
  }

  lemma ReplayNothing(a: Answer)
    ensures Replay(a, []) == a
  {
  }

  lemma {:induction false} ReplayConcat(a: Answer, x: seq<Effect>, y: seq<Effect>)
    ensures Replay(a, x + y) == Replay(Replay(a, x), y)
    decreases |x|
  {
    if x == [] {
      assert x + y == y;
    } else {
      assert (x + y)[1..] == x[1..] + y;
      ReplayConcat(Apply(a, x[0]), x[1..], y);
    }
  }

  lemma SplitAt<T>(s: seq<T>, i: nat)
    requires i < |s|
    ensures s[..i + 1] == s[..i] + [s[i]]
    ensures s == s[..i + 1] + s[i + 1..]
  {
  }

  lemma ThenAssociates(x: Trail, y: Trail, z: Trail)
    ensures x.Then(y).Then(z) == x.Then(y.Then(z))
  {
    assert x.effects + y.effects + z.effects == x.effects + (y.effects + z.effects);
  }

  lemma ThenDone(x: Trail)
    ensures x.Then(DONE) == x && DONE.Then(x) == x
  {
    assert x.effects + [] == x.effects && [] + x.effects == x.effects;
  }

  lemma {:induction false} ChangesConcat(a: seq<Change>, b: seq<Change>)
    ensures ChangesTrail(a + b) == ChangesTrail(a).Then(ChangesTrail(b))
  {
    if a == [] {
      assert a + b == b;
      ThenDone(ChangesTrail(b));
    } else {
      assert (a + b)[1..] == a[1..] + b;
      ChangesConcat(a[1..], b);
      ThenAssociates(ChangeTrail(a[0]), ChangesTrail(a[1..]), ChangesTrail(b));
    }
  }

  lemma {:induction false} PacketsConcat(a: seq<Packet>, b: seq<Packet>)
    ensures PacketsTrail(a + b) == PacketsTrail(a).Then(PacketsTrail(b))
  {
    if a == [] {
      assert a + b == b;
      ThenDone(PacketsTrail(b));
    } else {
      assert (a + b)[1..] == a[1..] + b;
      PacketsConcat(a[1..], b);
      ThenAssociates(PacketTrail(a[0]), PacketsTrail(a[1..]), PacketsTrail(b));
    }
  }

  lemma ChangesOne(c: Change)
    ensures ChangesTrail([c]) == ChangeTrail(c)
  {
    assert [c][1..] == [];
    ThenDone(ChangeTrail(c));
  }

  lemma ChangesSnoc(done: Trail, cs: seq<Change>, i: nat)
    requires i < |cs|
    ensures done.Then(ChangesTrail(cs[..i + 1])) == done.Then(ChangesTrail(cs[..i])).Then(ChangeTrail(cs[i]))
    ensures ChangeTrail(cs[i]).aborted && !ChangesTrail(cs[..i]).aborted ==>
              ChangesTrail(cs) == ChangesTrail(cs[..i + 1])
  {
    hide ChangesTrail, ChangeTrail;
    SplitAt(cs, i);
    ChangesOne(cs[i]);
    ChangesConcat(cs[..i], [cs[i]]);
    ChangesConcat(cs[..i + 1], cs[i + 1..]);
    ThenAssociates(done, ChangesTrail(cs[..i]), ChangeTrail(cs[i]));
  }

  lemma PacketsOne(p: Packet)
    ensures PacketsTrail([p]) == PacketTrail(p)
  {
    assert [p][1..] == [];
    ThenDone(PacketTrail(p));
  }

  lemma PacketsSnoc(ps: seq<Packet>, i: nat)
    requires i < |ps|
    ensures PacketsTrail(ps[..i + 1]) == PacketsTrail(ps[..i]).Then(PacketTrail(ps[i]))
    ensures PacketTrail(ps[i]).aborted && !PacketsTrail(ps[..i]).aborted ==>
              PacketsTrail(ps) == PacketsTrail(ps[..i + 1])
  {
    hide PacketsTrail, PacketTrail;
    SplitAt(ps, i);
    PacketsOne(ps[i]);
    PacketsConcat(ps[..i], [ps[i]]);
    PacketsConcat(ps[..i + 1], ps[i + 1..]);
  }

  /** The answer now is what the trail makes of the answer before, and the trail is unbroken. */
  ghost predicate Reached(before: Answer, trail: Trail, now: Answer, ok: bool) {
    now == Replay(before, trail.effects) && ok == !trail.aborted
  }

  lemma ReachedMore(before: Answer, trail: Trail, now: Answer, more: Trail)
    requires Reached(before, trail, now, true)
    ensures Reached(before, trail.Then(more), Replay(now, more.effects), !more.aborted)
  {
    ReplayConcat(before, trail.effects, more.effects);
  }

  // ---- OpenRouter against DeepSeek ----

  function WithoutErrors(ps: seq<Packet>): seq<Packet> {
    if ps == [] then [] else (if ps[0].hasError then [] else [ps[0]]) + WithoutErrors(ps[1..])
  }

  lemma {:induction false} WithoutErrorsConcat(a: seq<Packet>, b: seq<Packet>)
    ensures WithoutErrors(a + b) == WithoutErrors(a) + WithoutErrors(b)
  {
    if a == [] {
      assert a + b == b;
    } else {
      assert (a + b)[1..] == a[1..] + b;
      WithoutErrorsConcat(a[1..], b);
    }
  }

  lemma WithoutErrorsOne(p: Packet)
    ensures WithoutErrors([p]) == if p.hasError then [] else [p]
  {
    assert [p][1..] == [];
  }

  lemma WithoutErrorsSplit(ps: seq<Packet>, i: nat)
    requires i < |ps|
    ensures var kept := if ps[i].hasError then [] else [ps[i]];
            && WithoutErrors(ps[..i + 1]) == WithoutErrors(ps[..i]) + kept
            && WithoutErrors(ps) == WithoutErrors(ps[..i]) + kept + WithoutErrors(ps[i + 1..])
  {
    hide WithoutErrors;
    var front, one, rest := ps[..i], [ps[i]], ps[i + 1..];
    SplitAt(ps, i);
    WithoutErrorsOne(ps[i]);
    WithoutErrorsConcat(front, one);
    WithoutErrorsConcat(front + one, rest);
  }

  lemma WithoutErrorsSnoc(ps: seq<Packet>, i: nat)
    requires i < |ps|
    ensures ps[i].hasError ==> WithoutErrors(ps[..i + 1]) == WithoutErrors(ps[..i])
    ensures !ps[i].hasError ==>
              var sofar := PacketsTrail(WithoutErrors(ps[..i]));
              && PacketsTrail(WithoutErrors(ps[..i + 1])) == sofar.Then(PacketTrail(ps[i]))
              && (PacketTrail(ps[i]).aborted && !sofar.aborted ==>
                    PacketsTrail(WithoutErrors(ps)) == PacketsTrail(WithoutErrors(ps[..i + 1])))
  {
    hide PacketsTrail, WithoutErrors;
    WithoutErrorsSplit(ps, i);
    if !ps[i].hasError {
      var front, all := WithoutErrors(ps[..i]), WithoutErrors(ps);
      assert all[..|front|] == front && all[..|front| + 1] == front + [ps[i]] && all[|front|] == ps[i];
      PacketsSnoc(all, |front|);
    }
  }

  /** Exactly the packets without an error are left, in their order: `at` says where each of them stood. */
  lemma {:induction false} WithoutErrorsExactly(ps: seq<Packet>) returns (at: seq<nat>)
    ensures |at| == |WithoutErrors(ps)|
    ensures forall k :: 0 <= k < |at| ==> at[k] < |ps| && WithoutErrors(ps)[k] == ps[at[k]]
    ensures forall k :: 0 < k < |at| ==> at[k - 1] < at[k]
    ensures forall i :: 0 <= i < |ps| ==> (ps[i].hasError <==> i !in at)
  {
    if ps == [] {
      at := [];
    } else {
      var n := |ps| - 1;
      at := WithoutErrorsExactly(ps[..n]);
      WithoutErrorsSplit(ps, n);
      assert ps[..n + 1] == ps;
      if !ps[n].hasError {
        at := at + [n];
      }
    }
  }

  /** The reader that does not see packets carrying an error. */
  function ErrorsRemoved(read: Reader): Reader {
    event => match read(event) case Malformed => Malformed case Packets(ps) => Packets(WithoutErrors(ps))
  }

  lemma {:induction false} DeltaFreeErrors(ps: seq<Packet>)
    requires forall p :: p in ps && p.hasError ==> p.body.NoDelta?
    ensures PacketsTrail(WithoutErrors(ps)) == PacketsTrail(ps)
  {
    if ps == [] {
    } else {
      DeltaFreeErrors(ps[1..]);
      ThenDone(PacketsTrail(ps[1..]));
      if ps[0].hasError {
        assert WithoutErrors(ps) == WithoutErrors(ps[1..]);
      } else {
        assert WithoutErrors(ps)[1..] == WithoutErrors(ps[1..]);
      }
    }
  }

  /** On streams whose error packets carry no delta the two parsers cannot be told apart. */
  lemma {:induction false} ParsersAgree(read: Reader, events: seq<string>)
    requires forall e :: e in events ==> forall p :: p in EventPackets(read, e) && p.hasError ==> p.body.NoDelta?
    ensures StreamEffects(ErrorsRemoved(read), events) == StreamEffects(read, events)
  {
    if events == [] {
    } else {
      DeltaFreeErrors(EventPackets(read, events[0]));
      ParsersAgree(read, events[1..]);
    }
  }

  // ---- what the answer consists of ----

  function Spoken(es: seq<Effect>): seq<string> {
    if es == [] then [] else (if es[0].Say? then [es[0].chunk] else []) + Spoken(es[1..])
  }

  predicate Hits(e: Effect, i: nat) {
    e.Patch? && e.index == i
  }

  /** All argument fragments for slot i, in order. */
  function Fragments(es: seq<Effect>, i: nat): string {
    if es == [] then "" else (if Hits(es[0], i) then es[0].fragment else "") + Fragments(es[1..], i)
  }

  datatype Part = Id | Kind | Name

  function Pick(e: Effect, part: Part): Option<Json>
    requires e.Patch?
  {
    match part case Id => e.id case Kind => e.kind case Name => e.name
  }

  /** The last value sent for a part of slot i. */
  function Latest(es: seq<Effect>, i: nat, part: Part): Option<Json> {
    if es == [] then None
    else
      var later := Latest(es[1..], i, part);
      if later.Some? then later else if Hits(es[0], i) then Pick(es[0], part) else None
  }

  /** One more than the largest index. */
  function Width(es: seq<Effect>): nat {
    if es == [] then 0
    else
      var rest := Width(es[1..]);
      if es[0].Patch? && es[0].index >= rest then es[0].index + 1 else rest
  }

  function Merged(slot: Slot, es: seq<Effect>, i: nat): Slot {
    Slot(Update(slot.id, Latest(es, i, Id)), Update(slot.kind, Latest(es, i, Kind)),
         Update(slot.name, Latest(es, i, Name)), slot.arguments + Fragments(es, i))
  }

  function SlotAt(a: Answer, i: nat): Slot {
    if i < |a.calls| then a.calls[i] else FRESH
  }

  function Max(a: nat, b: nat): nat {
    if a >= b then a else b
  }

  lemma SpokenCons(es: seq<Effect>)
    requires es != []
    ensures Spoken(es) == if es[0].Say? then [es[0].chunk] + Spoken(es[1..]) else Spoken(es[1..])
  {
  }

  lemma ConcatCons(part: string, rest: seq<string>)
    ensures Concat([part] + rest) == part + Concat(rest)
  {
    assert ([part] + rest)[1..] == rest;
  }

  lemma SpokenStep(a: Answer, es: seq<Effect>)
    requires es != []
    ensures Apply(a, es[0]).text + Concat(Spoken(es[1..])) == a.text + Concat(Spoken(es))
    ensures Apply(a, es[0]).heard + Spoken(es[1..]) == a.heard + Spoken(es)
  {
    hide Concat, Spoken;
    var rest := Spoken(es[1..]);
    SpokenCons(es);
    if es[0].Say? {
      ConcatCons(es[0].chunk, rest);
      assert (a.text + es[0].chunk) + Concat(rest) == a.text + (es[0].chunk + Concat(rest));
      assert (a.heard + [es[0].chunk]) + rest == a.heard + ([es[0].chunk] + rest);
    }
  }

  lemma MergedStep(a: Answer, es: seq<Effect>, i: nat)
    requires es != []
    ensures Merged(SlotAt(Apply(a, es[0]), i), es[1..], i) == Merged(SlotAt(a, i), es, i)
  {
    var slot := SlotAt(Apply(a, es[0]), i);
    if Hits(es[0], i) {
      assert slot == PatchSlot(SlotAt(a, i), es[0]);
      assert (SlotAt(a, i).arguments + es[0].fragment) + Fragments(es[1..], i)
          == SlotAt(a, i).arguments + (es[0].fragment + Fragments(es[1..], i));
    } else {
      assert slot == SlotAt(a, i);
      assert "" + Fragments(es[1..], i) == Fragments(es[1..], i);
    }
  }

  /** Replaying, in closed form: text, callback and every slot on their own. */
  lemma {:induction false} ReplayInClosedForm(a: Answer, es: seq<Effect>)
    ensures var r := Replay(a, es);
            && r.text == a.text + Concat(Spoken(es))
            && r.heard == a.heard + Spoken(es)
            && |r.calls| == Max(|a.calls|, Width(es))
            && forall i :: 0 <= i < |r.calls| ==> r.calls[i] == Merged(SlotAt(a, i), es, i)
    decreases |es|
  {
    var r := Replay(a, es);
    if es == [] {
      forall i | 0 <= i < |r.calls| ensures r.calls[i] == Merged(SlotAt(a, i), es, i) {
        assert a.calls[i].arguments + "" == a.calls[i].arguments;
      }
    } else {
      var next, rest := Apply(a, es[0]), es[1..];
      ReplayInClosedForm(next, rest);
      forall i | 0 <= i < |r.calls| ensures r.calls[i] == Merged(SlotAt(a, i), es, i) {
        MergedStep(a, es, i);
      }
      SpokenStep(a, es);
    }
  }

  /** A finished answer: one slot per index up to the largest, each from its own changes only. */
  lemma AnswerInClosedForm(es: seq<Effect>)
    ensures var r := Replay(EMPTY, es);
            && r.text == Concat(r.heard) && r.heard == Spoken(es)
            && |r.calls| == Width(es)
            && forall i :: 0 <= i < |r.calls| ==>
                 && r.calls[i].arguments == Fragments(es, i)
                 && r.calls[i].id == Update(Str(""), Latest(es, i, Id))
                 && r.calls[i].name == Update(Str(""), Latest(es, i, Name))
                 && r.calls[i].kind == Update(Str("function"), Latest(es, i, Kind))
  {
    hide Replay, Spoken, Concat, Fragments, Latest, Width;
    ReplayInClosedForm(EMPTY, es);
    assert "" + Concat(Spoken(es)) == Concat(Spoken(es)) && [] + Spoken(es) == Spoken(es);
    forall i | 0 <= i < |Replay(EMPTY, es).calls|
      ensures Replay(EMPTY, es).calls[i].arguments == Fragments(es, i)
    {
      assert "" + Fragments(es, i) == Fragments(es, i);
    }
  }

  // ---- the order between different slots does not matter ----

  function ForSlot(es: seq<Effect>, i: nat): seq<Effect> {
    if es == [] then [] else (if Hits(es[0], i) then [es[0]] else []) + ForSlot(es[1..], i)
  }

  lemma {:induction false} OnlyOwnChanges(es: seq<Effect>, i: nat)
    ensures Fragments(ForSlot(es, i), i) == Fragments(es, i)
    ensures forall part :: Latest(ForSlot(es, i), i, part) == Latest(es, i, part)
  {
    if es == [] {
    } else {
      OnlyOwnChanges(es[1..], i);
      if Hits(es[0], i) {
        assert ForSlot(es, i) == [es[0]] + ForSlot(es[1..], i);
        assert ForSlot(es, i)[1..] == ForSlot(es[1..], i);
      } else {
        assert ForSlot(es, i) == ForSlot(es[1..], i);
        assert "" + Fragments(es[1..], i) == Fragments(es[1..], i);
      }
    }
  }

  lemma {:induction false} WidthIsReached(es: seq<Effect>, i: nat)
    ensures Width(es) > 0 ==> ForSlot(es, Width(es) - 1) != []
    ensures ForSlot(es, i) != [] ==> i < Width(es)
  {
    if es == [] {
    } else {
      WidthIsReached(es[1..], i);
    }
  }

  lemma SameWidth(x: seq<Effect>, y: seq<Effect>)
    requires forall i: nat :: ForSlot(x, i) == ForSlot(y, i)
    ensures Width(x) == Width(y)
  {
    hide Width, ForSlot;
    if Width(x) > 0 { WidthIsReached(x, 0); WidthIsReached(y, Width(x) - 1); }
    if Width(y) > 0 { WidthIsReached(y, 0); WidthIsReached(x, Width(y) - 1); }
  }

  /** Effects may be reordered freely as long as the text, and each slot on its own, keep theirs. */
  lemma SlotsAreIndependent(a: Answer, x: seq<Effect>, y: seq<Effect>)
    requires Spoken(x) == Spoken(y)
    requires forall i: nat :: ForSlot(x, i) == ForSlot(y, i)
    ensures Replay(a, x) == Replay(a, y)
  {
    hide Replay, Fragments, Latest, Width, ForSlot, Spoken;
    ReplayInClosedForm(a, x);
    ReplayInClosedForm(a, y);
    SameWidth(x, y);
    var r, s := Replay(a, x), Replay(a, y);
    forall i | 0 <= i < |r.calls| ensures r.calls[i] == s.calls[i] {
      OnlyOwnChanges(x, i);
      OnlyOwnChanges(y, i);
    }
    assert r.calls == s.calls;
  }

  /** Packets of one event may as well come in two, unless the first part breaks off. */
  lemma SplitEvent(ps: seq<Packet>, qs: seq<Packet>)
    ensures PacketsTrail(ps + qs).effects ==
            PacketsTrail(ps).effects + if PacketsTrail(ps).aborted then [] else PacketsTrail(qs).effects
  {
    PacketsConcat(ps, qs);
  }

  lemma {:induction false} StreamEffectsConcat(read: Reader, a: seq<string>, b: seq<string>)
    ensures StreamEffects(read, a + b) == StreamEffects(read, a) + StreamEffects(read, b)
  {
    if a == [] {
      assert a + b == b;
    } else {
      hide EventEffects;
      assert (a + b)[1..] == a[1..] + b && (a + b)[0] == a[0];
      calc {
        StreamEffects(read, a + b);
        EventEffects(read, a[0]) + StreamEffects(read, a[1..] + b);
        { StreamEffectsConcat(read, a[1..], b); }
        EventEffects(read, a[0]) + (StreamEffects(read, a[1..]) + StreamEffects(read, b));
        (EventEffects(read, a[0]) + StreamEffects(read, a[1..])) + StreamEffects(read, b);
        StreamEffects(read, a) + StreamEffects(read, b);
      }
    }
  }
}
