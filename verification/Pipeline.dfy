/** From the bytes of the last attempt to the answer: the layers of a streaming request together. */
module Pipeline {
  import opened SseText
  import opened SseEvents
  import opened SseDecoding
  import opened SseRoundTrip
  import opened StreamDeltas
  import opened HttpRetry

  /** Where the network cut the body, and the carriage returns it added, leave no trace. */
  lemma AttemptsWithSameBytes(a: Attempt, b: Attempt)
    requires a.headerStatus == b.headerStatus && a.reply == b.reply
    requires DropCR(Concat(Accepted(a.pieces))) == DropCR(Concat(Accepted(b.pieces)))
    ensures AttemptEvents(a) == AttemptEvents(b)
  {
    SameBytesSameEvents(Accepted(a.pieces), Accepted(b.pieces));
  }

  lemma FlushNothing()
    ensures Flush("") == Decoded([], "")
  {
  }

  lemma {:induction false} EncodeAllSnoc(payloads: seq<string>, last: string)
    ensures EncodeAll(payloads + [last]) == EncodeAll(payloads) + Encode(last)
  {
    if payloads == [] {
      assert [last][1..] == [];
      assert EncodeAll([last]) == Encode(last) + "";
    } else {
      assert (payloads + [last])[1..] == payloads[1..] + [last];
      EncodeAllSnoc(payloads[1..], last);
    }
  }

  /** A successful attempt whose body is an encoding of payloads delivers them, complete or cut short. */
  lemma AttemptDeliversPayloads(a: Attempt, payloads: seq<string>, last: string, missing: nat)
    requires 200 <= a.headerStatus < 300 && a.reply.Answered? && 200 <= a.reply.status < 300 && missing <= 2
    requires DropCR(Concat(Accepted(a.pieces))) + "\n\n"[..missing] == DropCR(EncodeAll(payloads) + Encode(last))
    requires Faithful(last) && forall i :: 0 <= i < |payloads| ==> Faithful(payloads[i])
    ensures AttemptEvents(a) == payloads + [last]
  {
    hide Feed, EncodeAll, Encode, Flush, DropCR, Survivors, Decode;
    var all := payloads + [last];
    SurvivorsAreAll(payloads);
    SurvivorsAreAll([last]);
    if missing == 0 {
      EncodeAllSnoc(payloads, last);
      assert DropCR(Concat(Accepted(a.pieces))) + "\n\n"[..0] == DropCR(Concat(Accepted(a.pieces)));
      RoundTrip(all, Accepted(a.pieces));
      SurvivorsAreAll(all);
      FlushNothing();
      assert all + [] == all;
    } else {
      TruncatedRoundTrip(payloads, last, missing, Accepted(a.pieces));
    }
  }
}
