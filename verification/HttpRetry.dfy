/**
 * One streaming request with its retries. An attempt is an arbitrary outcome of the network:
 * the status that arrived with the headers, the body pieces, and the final reply.
 */
module HttpRetry {
  import opened Options
  import opened Backoff
  import opened SseText
  import opened SseEvents
  import opened SseDecoding
  import opened StreamDeltas
  import opened StreamLaws
  import opened StreamParsing

  /** `readTimeout` tells an idle read timeout from the other transport errors. */
  datatype Reply = Lost(readTimeout: bool) | Answered(status: int, body: string, retryAfter: Option<int>)

  /** A body piece, and whether the receiver saw the cancel flag when it arrived. */
  datatype Piece = Piece(bytes: string, cancelSeen: bool)

  datatype Attempt = Attempt(headerStatus: int, pieces: seq<Piece>, reply: Reply,
                             cancelAfter: bool, jitter: Jitter, cancelInSleep: bool)

  predicate Success(status: int) {
    200 <= status < 300
  }

  predicate Succeeded(reply: Reply) {
    reply.Answered? && Success(reply.status)
  }

  // ---- which failures are final ----

  function LowerChar(c: char): char {
    if 'A' <= c <= 'Z' then (c as int + 32) as char else c
  }

  function Lower(s: string): string {
    seq(|s|, i requires 0 <= i < |s| => LowerChar(s[i]))
  }

  predicate MarkerAt(text: string, marker: string, i: nat) {
    i + |marker| <= |text| && text[i..i + |marker|] == marker
  }

  predicate Mentions(text: string, marker: string) {
    exists i: nat | i <= |text| :: MarkerAt(text, marker, i)
  }

  const QUOTA_MARKERS := ["exceeded your current quota", "quota exhausted", "billing account",
                          "billing required", "insufficient_quota", "limit: 0"]

  predicate IsHardQuota(reply: Reply, errorBody: string) {
    && reply.Answered? && reply.status == 429
    && var detail := Lower(if errorBody == "" then reply.body else errorBody);
       exists m | m in QUOTA_MARKERS :: Mentions(detail, m)
  }

  predicate ShouldRetry(reply: Reply, errorBody: string) {
    match reply
    case Lost(_) => true
    case Answered(status, _, _) =>
      !(status == 429 && IsHardQuota(reply, errorBody)) && status in {429, 500, 502, 503, 504}
  }

  /** A character of a text and one of a lower-case marker, up to the case of the former. */
  predicate SameLetter(c: char, lower: char) {
    if 'A' <= c <= 'Z' then lower as int - c as int == 'a' as int - 'A' as int else c == lower
  }

  ghost predicate SaysAt(text: string, marker: string, i: int)
    requires 0 <= i <= |text| - |marker|
  {
    forall j :: 0 <= j < |marker| ==> SameLetter(text[i + j], marker[j])
  }

  /** Somewhere in the text the marker stands, in any case. */
  ghost predicate Says(text: string, marker: string) {
    exists i :: 0 <= i <= |text| - |marker| && SaysAt(text, marker, i)
  }

  /** The text of a failure speaks of an exhausted quota or of billing. */
  ghost predicate QuotaText(text: string) {
    || Says(text, "exceeded your current quota") || Says(text, "quota exhausted")
    || Says(text, "billing account") || Says(text, "billing required")
    || Says(text, "insufficient_quota") || Says(text, "limit: 0")
  }

  /** The text a reply is judged by: the collected body of a failed stream, else its own body. */
  function Detail(reply: Reply, errorBody: string): string
    requires reply.Answered?
  {
    if errorBody != "" then errorBody else reply.body
  }

  lemma MentionsExactly(text: string, marker: string)
    ensures Mentions(Lower(text), marker) <==> Says(text, marker)
  {
    var lower := Lower(text);
    forall i: nat | i + |marker| <= |text| ensures MarkerAt(lower, marker, i) <==> SaysAt(text, marker, i) {
      var piece := lower[i..i + |marker|];
      assert forall j :: 0 <= j < |marker| ==> piece[j] == LowerChar(text[i + j]);
      if SaysAt(text, marker, i) { assert piece == marker; }
    }
    if Says(text, marker) {
      var i :| 0 <= i <= |text| - |marker| && SaysAt(text, marker, i);
      assert MarkerAt(lower, marker, i);
    }
    if Mentions(lower, marker) {
      var i: nat :| i <= |lower| && MarkerAt(lower, marker, i);
      assert SaysAt(text, marker, i);
    }
  }

  lemma MarkersExactly(text: string)
    ensures (exists m | m in QUOTA_MARKERS :: Mentions(Lower(text), m)) <==> QuotaText(text)
  {
    hide Mentions, Says, Lower;
    var m := QUOTA_MARKERS;
    assert m[0] == "exceeded your current quota" && m[1] == "quota exhausted" && m[2] == "billing account";
    assert m[3] == "billing required" && m[4] == "insufficient_quota" && m[5] == "limit: 0";
    forall i | 0 <= i < 6 ensures Mentions(Lower(text), m[i]) <==> Says(text, m[i]) {
      MentionsExactly(text, m[i]);
    }
    if marker :| marker in m && Mentions(Lower(text), marker) {
      var i :| 0 <= i < 6 && m[i] == marker;
      assert Says(text, m[i]);
    } else {
      assert forall i :: 0 <= i < 6 ==> m[i] in m && !Says(text, m[i]);
    }
  }

  lemma QuotaExactly(reply: Reply, errorBody: string)
    ensures IsHardQuota(reply, errorBody) <==>
              reply.Answered? && reply.status == 429 && QuotaText(Detail(reply, errorBody))
  {
    if reply.Answered? {
      MarkersExactly(Detail(reply, errorBody));
    }
  }

  /** A reply is retried exactly when it was lost, or is a 429 without such a text, or one of the four server errors. */
  lemma RetriedExactly(reply: Reply, errorBody: string)
    ensures ShouldRetry(reply, errorBody) <==>
              || reply.Lost?
              || reply.status in {500, 502, 503, 504}
              || (reply.status == 429 && !QuotaText(Detail(reply, errorBody)))
  {
    hide IsHardQuota, QuotaText;
    QuotaExactly(reply, errorBody);
  }

  // ---- what an attempt delivers ----

  /** The pieces up to the one at which the receiver gives up. */
  function Accepted(pieces: seq<Piece>): seq<string> {
    if pieces == [] || pieces[0].cancelSeen then [] else [pieces[0].bytes] + Accepted(pieces[1..])
  }

  /** All pieces are accepted up to the first one at which the receiver saw the cancel flag. */
  lemma {:induction false} AcceptedExactly(pieces: seq<Piece>)
    ensures var n := |Accepted(pieces)|;
            && n <= |pieces| && (n < |pieces| ==> pieces[n].cancelSeen)
            && forall i :: 0 <= i < n ==> !pieces[i].cancelSeen && Accepted(pieces)[i] == pieces[i].bytes
  {
    if pieces == [] || pieces[0].cancelSeen {
    } else {
      AcceptedExactly(pieces[1..]);
    }
  }

  /** The events of one attempt: what the body decodes to, and the flushed tail of a success. */
  function AttemptEvents(a: Attempt): seq<string> {
    if !(200 <= a.headerStatus < 300) then []
    else
      var fed := Feed("", Accepted(a.pieces));
      fed.events + if a.reply.Answered? && 200 <= a.reply.status < 300 then Flush(fed.rest).events else []
  }

  function AttemptErrorBody(a: Attempt): string {
    if 200 <= a.headerStatus < 300 then "" else Concat(Accepted(a.pieces))
  }

  /** Attempt k, with nothing delivered before, is not followed by a pause and a retry. */
  predicate Final(a: Attempt, k: nat, delivered: bool, maxAttempts: int) {
    || a.cancelAfter
    || delivered || AttemptEvents(a) != []
    || !ShouldRetry(a.reply, AttemptErrorBody(a))
    || k + 1 >= maxAttempts
    || (a.reply.Lost? && a.reply.readTimeout)
  }

  // ---- the consumer's side ----

  /** What the consumer has seen: the events, whether there were any, and the answer so far. */
  datatype Consumer = Consumer(events: seq<string>, received: bool, answer: Answer)

  function After(read: Reader, c: Consumer, events: seq<string>): Consumer {
    Consumer(c.events + events, c.received || events != [], Replay(c.answer, StreamEffects(read, events)))
  }

  lemma AfterNothing(read: Reader, c: Consumer)
    ensures After(read, c, []) == c
  {
  }

  lemma AfterMore(read: Reader, c: Consumer, events: seq<string>, more: seq<string>)
    ensures After(read, After(read, c, events), more) == After(read, c, events + more)
  {
    hide StreamEffects, Replay;
    assert (c.events + events) + more == c.events + (events + more);
    StreamEffectsConcat(read, events, more);
    ReplayConcat(c.answer, StreamEffects(read, events), StreamEffects(read, more));
  }

  lemma AfterOne(read: Reader, c: Consumer, event: string)
    ensures After(read, c, [event]) == Consumer(c.events + [event], true, Replay(c.answer, EventEffects(read, event)))
  {
    assert [event][1..] == [];
    assert StreamEffects(read, [event]) == EventEffects(read, event) + [] == EventEffects(read, event);
  }

  lemma HardQuotaIsFinal(reply: Reply, errorBody: string)
    ensures IsHardQuota(reply, errorBody) ==> !ShouldRetry(reply, errorBody)
  {
  }

  lemma AfterFlag(read: Reader, c: Consumer, events: seq<string>)
    ensures After(read, c, events).received == (c.received || events != [])
  {
  }

  /** What the first n retries waited for. */
  function Pauses(env: nat -> Attempt, n: nat): seq<Pause> {
    seq(n, k requires 0 <= k < n =>
      Pause(if env(k).reply.Answered? then env(k).reply.retryAfter else None, env(k).jitter))
  }

  /**
   * The wait after attempt k: the seconds of a Retry-After from 0 to 60, and otherwise half a second,
   * doubled with each attempt before, and the jitter.
   */
  ghost predicate Waited(a: Attempt, k: nat, delay: int) {
    if a.reply.Answered? && a.reply.retryAfter.Some? && 0 <= a.reply.retryAfter.value <= 60
    then delay == 1000 * a.reply.retryAfter.value
    else delay == 500 * Pow2(k) + a.jitter
  }

  lemma WaitedAsDelayed(a: Attempt, k: nat)
    ensures Waited(a, k, RetryDelay(if a.reply.Answered? then a.reply.retryAfter else None, k, a.jitter))
  {
  }

  /** What the decoder has made of the chunks; the body of a failure is not decoded. */
  function BodySoFar(a: Attempt, chunks: seq<string>): Decoded {
    if Success(a.headerStatus) then Feed("", chunks) else Decoded([], "")
  }

  function ErrorBody(a: Attempt, chunks: seq<string>): string {
    if Success(a.headerStatus) then "" else Concat(chunks)
  }

  /** The first i pieces were accepted, and are these chunks. */
  ghost predicate TakenUpTo(a: Attempt, taken: seq<string>, i: nat)
    requires i <= |a.pieces|
  {
    Accepted(a.pieces) == taken + Accepted(a.pieces[i..])
  }

  lemma NothingTaken(a: Attempt)
    ensures BodySoFar(a, []) == Decoded([], "") && ErrorBody(a, []) == ""
    ensures TakenUpTo(a, [], 0)
  {
    assert a.pieces[0..] == a.pieces;
  }

  lemma AcceptedStep(pieces: seq<Piece>, i: nat)
    requires i < |pieces|
    ensures Accepted(pieces[i..]) == if pieces[i].cancelSeen then [] else [pieces[i].bytes] + Accepted(pieces[i + 1..])
  {
    assert pieces[i..][1..] == pieces[i + 1..];
  }

  lemma TakenMore(a: Attempt, taken: seq<string>, i: nat)
    requires i < |a.pieces| && TakenUpTo(a, taken, i)
    ensures a.pieces[i].cancelSeen ==> Accepted(a.pieces) == taken
    ensures !a.pieces[i].cancelSeen ==> TakenUpTo(a, taken + [a.pieces[i].bytes], i + 1)
  {
    hide Accepted;
    AcceptedStep(a.pieces, i);
  }

  lemma TakenAll(a: Attempt, taken: seq<string>)
    ensures TakenUpTo(a, taken, |a.pieces|) ==> Accepted(a.pieces) == taken
  {
    assert a.pieces[|a.pieces|..] == [];
  }

  lemma BodyMore(a: Attempt, chunks: seq<string>, bytes: string)
    ensures var before, after := BodySoFar(a, chunks), BodySoFar(a, chunks + [bytes]);
            var more := Decode(before.rest + DropCR(bytes));
            Success(a.headerStatus) ==> after.events == before.events + more.events && after.rest == more.rest
    ensures !Success(a.headerStatus) ==> BodySoFar(a, chunks + [bytes]) == BodySoFar(a, chunks)
    ensures ErrorBody(a, chunks + [bytes]) ==
            if Success(a.headerStatus) then ErrorBody(a, chunks) else ErrorBody(a, chunks) + bytes
  {
    FeedSnoc("", chunks, bytes);
    ConcatSnoc(chunks, bytes);
  }

  lemma AttemptInPieces(a: Attempt)
    ensures var body := BodySoFar(a, Accepted(a.pieces));
            AttemptEvents(a) == if Succeeded(a.reply) then body.events + Flush(body.rest).events else body.events
    ensures AttemptErrorBody(a) == ErrorBody(a, Accepted(a.pieces))
  {
  }

  /**
   * The state the request callbacks share: the body of a failure, whether an event was delivered,
   * and the answer that outlives the single attempt.
   */
  class StreamRequest {
    const read: Reader
    const sink: Accumulator
    var errorBody: string
    var receivedEvent: bool
    var delivered: seq<string>

    constructor (read: Reader, sink: Accumulator)
      ensures this.read == read && this.sink == sink
      ensures !receivedEvent && delivered == [] && errorBody == ""
    {
      this.read, this.sink := read, sink;
      errorBody, receivedEvent, delivered := "", false, [];
    }

    function Seen(): Consumer
      reads this, sink
    {
      Consumer(delivered, receivedEvent, sink.View())
    }

    /** Hands decoded events to the consumer, one by one. */
    method Deliver(events: seq<string>)
      modifies this, sink
      ensures Seen() == After(read, old(Seen()), events) && errorBody == old(errorBody)
    {
      hide After, EventEffects;
      AfterNothing(read, Seen());
      for i := 0 to |events|
        invariant Seen() == After(read, old(Seen()), events[..i]) && errorBody == old(errorBody)
      {
        assert events[..i + 1] == events[..i] + [events[i]];
        AfterMore(read, old(Seen()), events[..i], [events[i]]);
        AfterOne(read, Seen(), events[i]);
        receivedEvent := true;
        delivered := delivered + [events[i]];
        sink.ParseDeepSeekChunk(read, events[i]);
      }
      assert events[..|events|] == events;
    }

    /** One attempt: decode a successful body as it arrives, or collect the body of a failure. */
    method StreamPost(a: Attempt) returns (reply: Reply)
      modifies this, sink
      ensures reply == a.reply && errorBody == AttemptErrorBody(a)
      ensures Seen() == After(read, old(Seen()), AttemptEvents(a))
    {
      hide After, Accepted, TakenUpTo, BodySoFar, ErrorBody, Success, Succeeded, Flush, Decode, DropCR, NoBlank;
      hide AttemptEvents, AttemptErrorBody, SseDecoder.Valid;
      errorBody := "";
      var decoder := new SseDecoder();
      ghost var taken: seq<string> := [];
      NothingTaken(a);
      AfterNothing(read, Seen());
      for i := 0 to |a.pieces|
        invariant TakenUpTo(a, taken, i)
        invariant decoder.Valid() && fresh(decoder)
        invariant decoder.pending == BodySoFar(a, taken).rest && errorBody == ErrorBody(a, taken)
        invariant Seen() == After(read, old(Seen()), BodySoFar(a, taken).events)
      {
        TakenMore(a, taken, i);
        if a.pieces[i].cancelSeen {
          break;
        }
        var bytes := a.pieces[i].bytes;
        BodyMore(a, taken, bytes);
        if Success(a.headerStatus) {
          var events := decoder.Push(bytes);
          AfterMore(read, old(Seen()), BodySoFar(a, taken).events, events);
          Deliver(events);
        } else {
          errorBody := errorBody + bytes;
        }
        taken := taken + [bytes];
      }
      TakenAll(a, taken);
      AttemptInPieces(a);
      reply := a.reply;
      if Succeeded(reply) {
        var events := decoder.Finish();
        AfterMore(read, old(Seen()), BodySoFar(a, taken).events, events);
        Deliver(events);
      }
    }

    /**
     * The retry loop. Attempt k is env(k); `attempts` is the number made, `delays` the waits that
     * were scheduled. A wait that is cancelled ends the loop with the reply at hand.
     */
    method ExecuteStreamWithRetry(env: nat -> Attempt, maxAttempts: int)
      returns (reply: Reply, attempts: nat, delays: seq<int>)
      modifies this, sink
      ensures 1 <= attempts && (attempts == 1 || attempts <= maxAttempts)
      ensures forall k :: 0 <= k < attempts - 1 ==>
                !Final(env(k), k, old(receivedEvent), maxAttempts) && !env(k).cancelInSleep
      ensures var stop := Final(env(attempts - 1), attempts - 1, old(receivedEvent), maxAttempts);
              (stop || env(attempts - 1).cancelInSleep) && |delays| == if stop then attempts - 1 else attempts
      ensures forall k :: 0 <= k < attempts - 1 ==>
                || env(k).reply.Lost? || env(k).reply.status in {500, 502, 503, 504}
                || (env(k).reply.status == 429 && !QuotaText(Detail(env(k).reply, AttemptErrorBody(env(k)))))
      ensures var last := env(attempts - 1);
              && attempts < maxAttempts && !last.cancelAfter && !last.cancelInSleep
              && !old(receivedEvent) && AttemptEvents(last) == [] && !(last.reply.Lost? && last.reply.readTimeout)
              ==> && reply.Answered? && reply.status !in {500, 502, 503, 504}
                  && (reply.status == 429 ==> QuotaText(Detail(reply, errorBody)))
      ensures delays == Delays(Pauses(env, |delays|)) && forall k :: 0 <= k < |delays| ==> Waited(env(k), k, delays[k])
      ensures reply == env(attempts - 1).reply && errorBody == AttemptErrorBody(env(attempts - 1))
      ensures Seen() == After(read, old(Seen()), AttemptEvents(env(attempts - 1)))
    {
      hide After, AttemptEvents, AttemptErrorBody, ShouldRetry, RetryDelay, Waited, QuotaText, Detail, IsHardQuota;
      attempts, delays := 0, [];
      while true
        invariant forall k :: 0 <= k < attempts ==>
                    || env(k).reply.Lost? || env(k).reply.status in {500, 502, 503, 504}
                    || (env(k).reply.status == 429 && !QuotaText(Detail(env(k).reply, AttemptErrorBody(env(k)))))
        invariant forall k :: 0 <= k < |delays| ==> Waited(env(k), k, delays[k])
        invariant forall k :: 0 <= k < attempts ==>
                    !Final(env(k), k, old(receivedEvent), maxAttempts) && !env(k).cancelInSleep
        invariant |delays| == attempts && delays == Delays(Pauses(env, attempts))
        invariant Seen() == old(Seen()) && (attempts == 0 || attempts < maxAttempts)
        decreases if attempts == 0 then 1 else 0, maxAttempts - attempts
      {
        var attempt := attempts;
        var a := env(attempt);
        reply := StreamPost(a);
        attempts := attempts + 1;
        var hardQuota := IsHardQuota(reply, errorBody);
        HardQuotaIsFinal(reply, errorBody);
        RetriedExactly(reply, errorBody);
        AfterFlag(read, old(Seen()), AttemptEvents(a));
        if a.cancelAfter || receivedEvent || hardQuota || !ShouldRetry(reply, errorBody)
           || attempt + 1 >= maxAttempts || (reply.Lost? && reply.readTimeout) {
          return;
        }
        var delay := RetryDelay(if reply.Answered? then reply.retryAfter else None, attempt, a.jitter);
        WaitedAsDelayed(a, attempt);
        delays := delays + [delay];
        assert delays == Delays(Pauses(env, attempts));
        AfterNothing(read, old(Seen()));
        if a.cancelInSleep {
          return;
        }
      }
    }
  }

  /** The same for a plain request, which delivers nothing before its reply. */
  predicate PlainFinal(a: Attempt, k: nat, maxAttempts: int) {
    a.cancelAfter || !ShouldRetry(a.reply, "") || k + 1 >= maxAttempts
  }

  method ExecuteWithRetry(env: nat -> Attempt, maxAttempts: int) returns (reply: Reply, attempts: nat, delays: seq<int>)
    ensures 1 <= attempts && (attempts == 1 || attempts <= maxAttempts)
    ensures forall k :: 0 <= k < attempts - 1 ==> !PlainFinal(env(k), k, maxAttempts) && !env(k).cancelInSleep
    ensures var stop := PlainFinal(env(attempts - 1), attempts - 1, maxAttempts);
            (stop || env(attempts - 1).cancelInSleep) && |delays| == if stop then attempts - 1 else attempts
    ensures forall k :: 0 <= k < attempts - 1 ==>
              || env(k).reply.Lost? || env(k).reply.status in {500, 502, 503, 504}
              || (env(k).reply.status == 429 && !QuotaText(env(k).reply.body))
    ensures attempts < maxAttempts && !env(attempts - 1).cancelAfter && !env(attempts - 1).cancelInSleep ==>
              && reply.Answered? && reply.status !in {500, 502, 503, 504}
              && (reply.status == 429 ==> QuotaText(reply.body))
    ensures reply == env(attempts - 1).reply && delays == Delays(Pauses(env, |delays|))
    ensures forall k :: 0 <= k < |delays| ==> Waited(env(k), k, delays[k])
  {
    hide ShouldRetry, RetryDelay, Waited, QuotaText;
    attempts, delays := 0, [];
    while true
      invariant forall k :: 0 <= k < attempts ==>
                  || env(k).reply.Lost? || env(k).reply.status in {500, 502, 503, 504}
                  || (env(k).reply.status == 429 && !QuotaText(env(k).reply.body))
      invariant forall k :: 0 <= k < |delays| ==> Waited(env(k), k, delays[k])
      invariant forall k :: 0 <= k < attempts ==> !PlainFinal(env(k), k, maxAttempts) && !env(k).cancelInSleep
      invariant |delays| == attempts && delays == Delays(Pauses(env, attempts))
      invariant attempts == 0 || attempts < maxAttempts
      decreases if attempts == 0 then 1 else 0, maxAttempts - attempts
    {
      var a := env(attempts);
      reply := a.reply;
      attempts := attempts + 1;
      RetriedExactly(reply, "");
      if a.cancelAfter || !ShouldRetry(reply, "") || attempts >= maxAttempts {
        return;
      }
      var delay := RetryDelay(if reply.Answered? then reply.retryAfter else None, attempts - 1, a.jitter);
      WaitedAsDelayed(a, attempts - 1);
      delays := delays + [delay];
      assert delays == Delays(Pauses(env, attempts));
      if a.cancelInSleep {
        return;
      }
    }
  }
}
