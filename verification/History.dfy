/** The conversation history of a provider, and trimming it. */
module History {
  import opened JsonValues
  import opened StreamDeltas

  datatype Message =
    | System(content: string)
    | User(content: string)
    | Assistant(content: string, calls: seq<Slot>)
    | ToolReply(callId: string, result: Json)

  predicate HasHead(h: seq<Message>) {
    h != [] && h[0].System?
  }

  /** Reachable histories: a system message stands only in front. */
  ghost predicate HeadOnly(h: seq<Message>) {
    forall i :: 0 < i < |h| ==> !h[i].System?
  }

  /** The first index that trimming may remove. */
  function KeepFrom(h: seq<Message>): nat {
    if HasHead(h) then 1 else 0
  }

  /** The system message, if any, and the longest suffix that fits with it. */
  function Trimmed(h: seq<Message>, limit: nat): (r: seq<Message>)
    requires KeepFrom(h) <= limit
  {
    if |h| <= limit then h
    else h[..KeepFrom(h)] + h[|h| - (limit - KeepFrom(h))..]
  }

  lemma HeadAndTail<T>(head: seq<T>, tail: seq<T>)
    ensures (head + tail)[..|head|] == head && (head + tail)[|head|..] == tail
  {
  }

  lemma HeadOnlyStays(h: seq<Message>, k: nat, cut: nat)
    requires k <= 1 && k <= cut <= |h|
    ensures HeadOnly(h) ==> HeadOnly(h[..k] + h[cut..])
  {
  }

  /** What is kept is the head and a suffix, and no longer suffix would fit with the head. */
  lemma TrimmedIsLongestSuffix(h: seq<Message>, limit: nat)
    requires KeepFrom(h) <= limit
    ensures var r, k := Trimmed(h, limit), KeepFrom(h);
            && |r| == (if |h| <= limit then |h| else limit)
            && r == h[..k] + h[|h| - (|r| - k)..]
            && forall n :: k <= n <= |h| && |h[..k] + h[n..]| <= limit ==> |h[n..]| <= |r| - k
    ensures HeadOnly(h) ==> HeadOnly(Trimmed(h, limit))
    ensures h != [] && h[0].System? ==> Trimmed(h, limit) != [] && Trimmed(h, limit)[0] == h[0]
    ensures h == [] || !h[0].System? ==> Trimmed(h, limit) == h[|h| - |Trimmed(h, limit)|..]
  {
    hide HeadOnly;
    var r, k := Trimmed(h, limit), KeepFrom(h);
    if |h| <= limit {
      assert h == h[..k] + h[k..];
    } else {
      HeadOnlyStays(h, k, |h| - (limit - k));
    }
  }

  /** What trimming does to a history that is too long, message by message. */
  lemma CutHistory(h: seq<Message>, limit: nat)
    requires KeepFrom(h) <= limit
    ensures |h| <= limit ==> Trimmed(h, limit) == h
    ensures |h| > limit ==>
              var r, k := Trimmed(h, limit), KeepFrom(h);
              && |r| == limit && r[k..] == h[|h| - (|r| - k)..]
              && (k == 1 ==> r[0] == h[0]) && (limit > k ==> r[k] == h[|h| - (limit - k)])
  {
    if |h| > limit {
      var k := KeepFrom(h);
      HeadAndTail(h[..k], h[|h| - (limit - k)..]);
    }
  }

  /** `now` is `h` without some messages right behind the first k. */
  ghost predicate Erased(h: seq<Message>, now: seq<Message>, k: nat) {
    k <= |now| <= |h| && now == h[..k] + h[|h| - (|now| - k)..]
  }

  lemma NothingErased(h: seq<Message>)
    ensures Erased(h, h, KeepFrom(h)) && KeepFrom(h) <= |h|
  {
    var k := KeepFrom(h);
    assert h == h[..k] + h[k..];
  }

  lemma EraseOne(h: seq<Message>, now: seq<Message>, k: nat)
    requires Erased(h, now, k) && k < |now|
    ensures Erased(h, now[..k] + now[k + 1..], k)
  {
    assert now[..k] == h[..k];
    assert now[k + 1..] == h[|h| - (|now| - k)..][1..] == h[|h| - (|now| - 1 - k)..];
  }

  lemma ErasedIsTrimmed(h: seq<Message>, now: seq<Message>, limit: nat)
    requires KeepFrom(h) <= limit && Erased(h, now, KeepFrom(h))
    requires |now| == if |h| <= limit then |h| else limit
    ensures now == Trimmed(h, limit)
  {
    var k := KeepFrom(h);
    assert h == h[..k] + h[k..];
  }

  /** Trimming twice is trimming once to the smaller limit. */
  lemma TrimTwice(h: seq<Message>, a: nat, b: nat)
    requires HeadOnly(h) && KeepFrom(h) <= a && KeepFrom(h) <= b
    ensures KeepFrom(Trimmed(h, a)) <= b
    ensures Trimmed(Trimmed(h, a), b) == Trimmed(h, if a <= b then a else b)
  {
    var once := Trimmed(h, a);
    if |h| > a && a > b {
      var k := KeepFrom(h);
      assert KeepFrom(once) == k;
      assert once[..k] == h[..k];
      assert once[|once| - (b - k)..] == h[|h| - (b - k)..];
    }
  }

  // ---- calls and replies ----

  /** The tool reply at i answers a call of the nearest assistant message before it, in order. */
  ghost predicate Answers(h: seq<Message>, i: nat, j: nat)
    requires i < |h| && h[i].ToolReply?
  {
    && j < i && h[j].Assistant? && i - j <= |h[j].calls|
    && h[j].calls[i - j - 1].id == Str(h[i].callId)
    && forall k :: j < k < i ==> h[k].ToolReply?
  }

  /** No tool reply without the call it answers. */
  ghost predicate NoOrphans(h: seq<Message>) {
    forall i: nat :: i < |h| && h[i].ToolReply? ==> exists j: nat :: Answers(h, i, j)
  }

  lemma SamePairs(h: seq<Message>, more: seq<Message>, i: nat)
    requires h <= more && NoOrphans(h) && i < |h| && more[i].ToolReply?
    ensures exists j: nat :: Answers(more, i, j)
  {
    assert h[i] == more[i];
    var j: nat :| Answers(h, i, j);
    assert forall k :: j <= k <= i ==> more[k] == h[k];
    assert Answers(more, i, j);
  }

  /** A message that is no tool reply orphans nobody. */
  lemma MessageKeepsPairs(h: seq<Message>, m: Message)
    requires NoOrphans(h) && !m.ToolReply?
    ensures NoOrphans(h + [m])
  {
    forall i: nat | i < |h + [m]| && (h + [m])[i].ToolReply? ensures exists j: nat :: Answers(h + [m], i, j) {
      SamePairs(h, h + [m], i);
    }
  }

  lemma NoneMissing(h: seq<Message>)
    requires forall i: nat :: i < |h| && h[i].ToolReply? ==> exists j: nat :: Answers(h, i, j)
    ensures NoOrphans(h)
  {
  }

  /** Nor do replies to all calls of the last message, in order. */
  lemma RepliesKeepPairs(h: seq<Message>, replies: seq<Message>)
    requires NoOrphans(h) && h != [] && h[|h| - 1].Assistant? && |h[|h| - 1].calls| == |replies|
    requires forall k :: 0 <= k < |replies| ==>
               replies[k].ToolReply? && h[|h| - 1].calls[k].id == Str(replies[k].callId)
    ensures NoOrphans(h + replies)
  {
    hide NoOrphans;
    var all := h + replies;
    forall i: nat | i < |all| && all[i].ToolReply? ensures exists j: nat :: Answers(all, i, j) {
      if i < |h| {
        SamePairs(h, all, i);
      } else {
        assert forall k :: |h| <= k < |all| ==> all[k] == replies[k - |h|];
        assert all[|h| - 1] == h[|h| - 1];
        assert Answers(all, i, |h| - 1);
      }
    }
    NoneMissing(all);
  }

  lemma SuffixAt(h: seq<Message>, r: seq<Message>, k: nat, m: nat)
    requires k <= m < |r| <= |h| && r[k..] == h[|h| - (|r| - k)..]
    ensures r[m] == h[m + (|h| - |r|)]
  {
    assert r[m] == r[k..][m - k];
  }

  /** A reply and its call, both in the suffix, are still a pair there. */
  lemma AnswersShift(h: seq<Message>, r: seq<Message>, k: nat, i: nat, j: nat)
    requires k <= |r| <= |h| && r[k..] == h[|h| - (|r| - k)..]
    requires i < |h| && h[i].ToolReply? && Answers(h, i, j) && |h| - (|r| - k) <= j
    ensures var cut := |h| - |r|;
            && cut <= j < i && i - cut < |r| && r[j - cut] == h[j] && r[i - cut] == h[i]
            && Answers(r, i - cut, j - cut)
  {
    var cut := |h| - |r|;
    SuffixAt(h, r, k, i - cut);
    SuffixAt(h, r, k, j - cut);
    forall m | j - cut < m < i - cut ensures r[m].ToolReply? {
      SuffixAt(h, r, k, m);
      assert h[m + cut].ToolReply?;
    }
  }

  /** A call that is kept keeps every reply to it: only what comes before a message is ever removed. */
  lemma KeptCallsKeepTheirReplies(h: seq<Message>, limit: nat, i: nat, j: nat)
    requires KeepFrom(h) <= limit < |h| && i < |h| && h[i].ToolReply? && Answers(h, i, j)
    requires |h| - (limit - KeepFrom(h)) <= j
    ensures var r, cut := Trimmed(h, limit), |h| - limit;
            && cut <= j < i && i - cut < |r| && r[j - cut] == h[j] && r[i - cut] == h[i]
            && Answers(r, i - cut, j - cut)
  {
    hide Trimmed;
    CutHistory(h, limit);
    AnswersShift(h, Trimmed(h, limit), KeepFrom(h), i, j);
  }

  lemma FirstReplyIsOrphan(h: seq<Message>, r: seq<Message>, k: nat)
    requires k == KeepFrom(h) && k < |r| && (k == 1 ==> r[0] == h[0])
    requires r[k].ToolReply?
    ensures !NoOrphans(r)
  {
    forall j: nat ensures !Answers(r, k, j) {
      assert j < k ==> j == 0 && r[j].System?;
    }
  }

  lemma LaterReplyIsKept(h: seq<Message>, r: seq<Message>, k: nat, i: nat)
    requires NoOrphans(h) && k < |r| < |h| && r[k..] == h[|h| - (|r| - k)..] && !r[k].ToolReply?
    requires i < |r| && (i < k ==> !r[i].ToolReply?) && r[i].ToolReply?
    ensures exists j: nat :: Answers(r, i, j)
  {
    var cut := |h| - |r|;
    SuffixAt(h, r, k, i);
    SuffixAt(h, r, k, k);
    var j: nat :| Answers(h, i + cut, j);
    assert !h[k + cut].ToolReply?;
    assert k + cut <= j;
    AnswersShift(h, r, k, i + cut, j);
  }

  lemma LaterRepliesAreKept(h: seq<Message>, r: seq<Message>, k: nat)
    requires NoOrphans(h) && k == KeepFrom(h) && k <= |r| < |h| && r[k..] == h[|h| - (|r| - k)..]
    requires (k == 1 ==> r[0] == h[0]) && (k < |r| ==> !r[k].ToolReply?)
    ensures NoOrphans(r)
  {
    forall i: nat | i < |r| && r[i].ToolReply? ensures exists j: nat :: Answers(r, i, j) {
      LaterReplyIsKept(h, r, k, i);
    }
  }

  /**
   * Trimming keeps calls and replies together exactly when it removes nothing, keeps nothing but
   * the head, or the suffix it keeps does not start with a tool reply.
   */
  lemma TrimKeepsPairsExactly(h: seq<Message>, limit: nat)
    requires KeepFrom(h) <= limit && HeadOnly(h) && NoOrphans(h)
    ensures NoOrphans(Trimmed(h, limit)) <==>
              (|h| <= limit || limit == KeepFrom(h) || !h[|h| - (limit - KeepFrom(h))].ToolReply?)
  {
    hide NoOrphans, HeadOnly, Trimmed;
    CutHistory(h, limit);
    if |h| > limit {
      var r, k := Trimmed(h, limit), KeepFrom(h);
      if |r| > k && r[k].ToolReply? {
        FirstReplyIsOrphan(h, r, k);
      } else {
        LaterRepliesAreKept(h, r, k);
      }
    }
  }

  /** A limit that falls between a call and its reply leaves the reply behind alone. */
  lemma TrimCanSplitAPair()
    ensures var call := Slot(Str("c1"), Str("function"), Str("look"), "{}");
            var h := [System("s"), User("q"), Assistant("", [call]), ToolReply("c1", Null), Assistant("a", [])];
            HeadOnly(h) && NoOrphans(h) && !NoOrphans(Trimmed(h, 3))
  {
    var call := Slot(Str("c1"), Str("function"), Str("look"), "{}");
    var h := [System("s"), User("q"), Assistant("", [call]), ToolReply("c1", Null), Assistant("a", [])];
    assert Answers(h, 3, 2);
    forall i: nat | i < |h| && h[i].ToolReply? ensures exists j: nat :: Answers(h, i, j) {
      assert i == 3;
    }
    TrimKeepsPairsExactly(h, 3);
    assert Trimmed(h, 3) == [System("s"), ToolReply("c1", Null), Assistant("a", [])];
  }
}
