/** What the explained logs of a confirmation gate promise to its users, one waiting or many. */
module GateLaws {
  import opened Options
  import opened Decimals
  import opened ConfirmationGates

  lemma PrefixExplained(nonce: string, log: seq<Event>, n: nat)
    requires AllExplained(nonce, log) && n <= |log|
    ensures AllExplained(nonce, log[..n])
  {
    forall i | 0 <= i < n ensures Explained(nonce, log[..n][..i], log[..n][i]) {
      assert log[..n][..i] == log[..i];
    }
  }

  /** No wait is ever answered twice. */
  lemma {:induction false} AtMostOneAnswer(nonce: string, log: seq<Event>, wait: nat)
    requires AllExplained(nonce, log)
    ensures |Answers(log, wait)| <= 1
    decreases |log|
  {
    if log == [] {
    } else {
      var n := |log| - 1;
      PrefixExplained(nonce, log, n);
      AtMostOneAnswer(nonce, log[..n], wait);
      assert Explained(nonce, log[..n], log[n]);
    }
  }

  /** Waits that still block have been issued. */
  lemma {:induction false} WaitingIsIssued(nonce: string, log: seq<Event>, n: nat)
    requires AllExplained(nonce, log) && n <= |log|
    ensures forall w :: w in Waiting(log[..n]) ==> 1 <= w <= Issues(log[..n])
    ensures Pending(log[..n]) ==> Issues(log[..n]) in Waiting(log[..n])
    decreases n
  {
    if n == 0 {
    } else {
      hide Pending, Flag, Answers, Waiting, Issues, Token;
      LogMore(log[..n - 1], log[n - 1]);
      assert log[..n] == log[..n - 1] + [log[n - 1]];
      assert Explained(nonce, log[..n - 1], log[n - 1]);
      WaitingIsIssued(nonce, log, n - 1);
    }
  }

  /** The number of waits only grows, and after a return the next token is that of a later wait. */
  lemma {:induction false} LaterWaits(nonce: string, log: seq<Event>, i: nat, j: nat)
    requires AllExplained(nonce, log) && i < j <= |log|
    ensures Issues(log[..i]) <= Issues(log[..j])
    ensures log[i].Issued? ==> log[i].wait <= Issues(log[..j])
    ensures log[i].Returned? && Pending(log[..j]) ==> Issues(log[..i]) < Issues(log[..j])
    decreases j
  {
    LogMore(log[..j - 1], log[j - 1]);
    assert log[..j] == log[..j - 1] + [log[j - 1]];
    assert Explained(nonce, log[..j - 1], log[j - 1]);
    if i < j - 1 {
      LaterWaits(nonce, log, i, j - 1);
    }
  }

  /** Once any wait has returned, no wait that began before it is answered any more. */
  lemma {:induction false} AnswersAreFinal(nonce: string, log: seq<Event>, i: nat, j: nat, wait: nat)
    requires AllExplained(nonce, log) && i < j <= |log| && log[i].Returned? && wait <= Issues(log[..i])
    ensures Answers(log[..j], wait) == Answers(log[..i], wait)
    decreases j
  {
    hide Issues, Pending, Flag, Answers, Waiting, Token;
    var front, e := log[..j - 1], log[j - 1];
    LogMore(front, e);
    assert log[..j] == front + [e];
    assert Explained(nonce, front, e);
    if i < j - 1 {
      AnswersAreFinal(nonce, log, i, j - 1, wait);
      LaterWaits(nonce, log, i, j - 1);
    }
  }

  // ---- what a wait returns ----

  /**
   * However many wait: a wait returns true exactly when the newest wait there is has been answered
   * by one approval, and the gate is not cancelled at that moment.
   */
  lemma NewestWaitDecides(nonce: string, steps: seq<Step>, i: nat)
    requires i < |Run(nonce, steps).log| && Run(nonce, steps).log[i].Returned?
    ensures var log := Run(nonce, steps).log;
            var newest := Issues(log[..i]);
            && 1 <= log[i].wait <= newest && |Answers(log, newest)| <= 1
            && (log[i].result <==> Answers(log, newest) == [true] && !Flag(log[..i]))
            && Answers(log, log[i].wait) == Answers(log[..i], log[i].wait)
  {
    hide Issues, Pending, Flag, Answers, Waiting, Token, Run;
    var log := Run(nonce, steps).log;
    EveryRunIsExplained(nonce, steps);
    assert Explained(nonce, log[..i], log[i]);
    WaitingIsIssued(nonce, log, i);
    AtMostOneAnswer(nonce, log, Issues(log[..i]));
    AnswersAreFinal(nonce, log, i, |log|, Issues(log[..i]));
    AnswersAreFinal(nonce, log, i, |log|, log[i].wait);
    assert log[..|log|] == log;
  }

  /** The answers ever accepted for a wait are one approval, and the gate is uncancelled before event i. */
  ghost predicate OwnVerdict(log: seq<Event>, wait: nat, i: nat)
    requires i <= |log|
  {
    Answers(log, wait) == [true] && !Flag(log[..i])
  }

  /**
   * A wait returns its own verdict exactly when the gate is cancelled at that moment, or it has an
   * approval just when the newest wait has one.
   */
  lemma OwnVerdictExactly(nonce: string, steps: seq<Step>, i: nat)
    requires i < |Run(nonce, steps).log| && Run(nonce, steps).log[i].Returned?
    ensures var log := Run(nonce, steps).log;
            var newest := Issues(log[..i]);
            (log[i].result == OwnVerdict(log, log[i].wait, i)) <==>
            (Flag(log[..i]) || (Answers(log, log[i].wait) == [true] <==> Answers(log, newest) == [true]))
  {
    hide Issues, Flag, Answers, Run;
    NewestWaitDecides(nonce, steps, i);
  }

  lemma {:induction false} LastIssue(nonce: string, log: seq<Event>, n: nat)
    requires AllExplained(nonce, log) && n <= |log|
    ensures Issues(log[..n]) > 0 ==> exists j :: 0 <= j < n && log[j].Issued? && log[j].wait == Issues(log[..n])
    decreases n
  {
    if n == 0 {
    } else {
      hide Pending, Flag, Answers, Waiting, Token;
      LogMore(log[..n - 1], log[n - 1]);
      assert log[..n] == log[..n - 1] + [log[n - 1]];
      assert Explained(nonce, log[..n - 1], log[n - 1]);
      LastIssue(nonce, log, n - 1);
    }
  }

  /** In particular it does when no later wait has begun before it returns. */
  lemma WaitReturnsItsAnswer(nonce: string, steps: seq<Step>, i: nat)
    requires i < |Run(nonce, steps).log| && Run(nonce, steps).log[i].Returned?
    requires var log := Run(nonce, steps).log;
             forall j :: 0 <= j < i && log[j].Issued? ==> log[j].wait <= log[i].wait
    ensures var log := Run(nonce, steps).log;
            |Answers(log, log[i].wait)| <= 1 && (log[i].result <==> OwnVerdict(log, log[i].wait, i))
  {
    hide Issues, Flag, Answers, Run;
    var log := Run(nonce, steps).log;
    EveryRunIsExplained(nonce, steps);
    NewestWaitDecides(nonce, steps, i);
    LastIssue(nonce, log, i);
  }

  /** Never more than one wait at a time: each begins when none is open. */
  ghost predicate OneAtATime(log: seq<Event>) {
    forall j :: 0 <= j < |log| && log[j].Issued? ==> Waiting(log[..j]) == {}
  }

  lemma {:induction false} OnlyTheNewestWaits(nonce: string, log: seq<Event>, n: nat)
    requires AllExplained(nonce, log) && OneAtATime(log) && n <= |log|
    ensures Waiting(log[..n]) <= {Issues(log[..n])}
    decreases n
  {
    if n == 0 {
    } else {
      LogMore(log[..n - 1], log[n - 1]);
      assert log[..n] == log[..n - 1] + [log[n - 1]];
      assert Explained(nonce, log[..n - 1], log[n - 1]);
      OnlyTheNewestWaits(nonce, log, n - 1);
    }
  }

  /** With one wait at a time every wait returns its own verdict. */
  lemma OneWaiterGetsItsAnswer(nonce: string, steps: seq<Step>, i: nat)
    requires i < |Run(nonce, steps).log| && Run(nonce, steps).log[i].Returned?
    requires OneAtATime(Run(nonce, steps).log)
    ensures var log := Run(nonce, steps).log;
            log[i].wait == Issues(log[..i]) && (log[i].result <==> OwnVerdict(log, log[i].wait, i))
  {
    hide Issues, Flag, Answers, Waiting, Pending, Run;
    var log := Run(nonce, steps).log;
    EveryRunIsExplained(nonce, steps);
    NewestWaitDecides(nonce, steps, i);
    OnlyTheNewestWaits(nonce, log, i);
    assert Explained(nonce, log[..i], log[i]);
  }

  // ---- several waits at once ----

  /**
   * Whenever somebody waits without an approval, on an uncancelled gate, one more question and its
   * approval make that wait return true, though it has been approved by nobody.
   */
  lemma LaterApprovalIsTaken(nonce: string, steps: seq<Step>, wait: nat)
    requires var s := Run(nonce, steps); !Flag(s.log) && wait in s.open && Answers(s.log, wait) != [true]
    ensures var s := Run(nonce, steps);
            var token := Token(nonce, (s.waits + 1) % WRAP);
            var t := Run(nonce, steps + [Begin] + [Reply(token, true)] + [Wake(wait, false)]);
            && t.log == s.log + [Issued(s.waits + 1, token)] + [Accepted(s.waits + 1, token, true)]
                        + [Returned(wait, true)]
            && Answers(t.log, wait) != [true]
  {
    hide Issues, Pending, Flag, Answers, Waiting, Token, Run;
    var s := Run(nonce, steps);
    var next := s.waits + 1;
    var token := Token(nonce, next % WRAP);
    EveryRunIsExplained(nonce, steps);
    NextOrdinal(s.waits);
    TokenNotEmpty(nonce, next % WRAP);
    RunMore(nonce, steps, Begin);
    RunMore(nonce, steps + [Begin], Reply(token, true));
    RunMore(nonce, steps + [Begin] + [Reply(token, true)], Wake(wait, false));
    var begun := s.log + [Issued(next, token)];
    LogMore(s.log, Issued(next, token));
    LogMore(begun, Accepted(next, token, true));
    LogMore(begun + [Accepted(next, token, true)], Returned(wait, true));
  }

  /**
   * Whenever somebody waits with an approval that was accepted, on an uncancelled gate, one more
   * question before the waiter wakes makes that wait return false: the approval is forgotten.
   */
  lemma ApprovalIsForgotten(nonce: string, steps: seq<Step>, wait: nat)
    requires var s := Run(nonce, steps); !Flag(s.log) && wait in s.open && Answers(s.log, wait) == [true]
    ensures var s := Run(nonce, steps);
            var t := Run(nonce, steps + [Begin] + [Wake(wait, true)]);
            && t.log == s.log + [Issued(s.waits + 1, Token(nonce, (s.waits + 1) % WRAP))] + [Returned(wait, false)]
            && Answers(t.log, wait) == [true] && !Flag(t.log)
  {
    hide Issues, Pending, Flag, Answers, Waiting, Token, Run;
    var s := Run(nonce, steps);
    var next := s.waits + 1;
    var token := Token(nonce, next % WRAP);
    EveryRunIsExplained(nonce, steps);
    NextOrdinal(s.waits);
    RunMore(nonce, steps, Begin);
    RunMore(nonce, steps + [Begin], Wake(wait, true));
    LogMore(s.log, Issued(next, token));
    LogMore(s.log + [Issued(next, token)], Returned(wait, false));
  }

  /** From every uncancelled state two steps lead to a wait with an accepted approval. */
  lemma ApprovedWaitIsReachable(nonce: string, steps: seq<Step>)
    requires !Flag(Run(nonce, steps).log)
    ensures var wait := Run(nonce, steps).waits + 1;
            var t := Run(nonce, steps + [Begin] + [Reply(Token(nonce, wait % WRAP), true)]);
            !Flag(t.log) && wait in t.open && Answers(t.log, wait) == [true]
  {
    hide Issues, Pending, Flag, Answers, Waiting, Token, Run;
    var s := Run(nonce, steps);
    var next := s.waits + 1;
    var token := Token(nonce, next % WRAP);
    EveryRunIsExplained(nonce, steps);
    NextOrdinal(s.waits);
    TokenNotEmpty(nonce, next % WRAP);
    RunMore(nonce, steps, Begin);
    RunMore(nonce, steps + [Begin], Reply(token, true));
    LogMore(s.log, Issued(next, token));
    LogMore(s.log + [Issued(next, token)], Accepted(next, token, true));
  }

  // ---- when one more question is safe ----

  ghost predicate NoBegin(steps: seq<Step>) {
    forall step :: step in steps ==> !step.Begin?
  }

  /** Every wait that returns at or after event `from` returns its own verdict. */
  ghost predicate OwnVerdicts(log: seq<Event>, from: nat) {
    forall i :: from <= i < |log| && log[i].Returned? ==> (log[i].result == OwnVerdict(log, log[i].wait, i))
  }

  lemma {:induction false} NoBeginIssuesNothing(nonce: string, steps: seq<Step>, rest: seq<Step>)
    requires NoBegin(rest)
    ensures var s, t := Run(nonce, steps), Run(nonce, steps + rest);
            s.log <= t.log && forall i :: |s.log| <= i < |t.log| ==> !t.log[i].Issued?
    decreases |rest|
  {
    if rest == [] {
      assert steps + rest == steps;
    } else {
      hide Run, Answered, Takes, Verdict, Begun;
      var front, last := rest[..|rest| - 1], rest[|rest| - 1];
      assert steps + rest == (steps + front) + [last];
      NoBeginIssuesNothing(nonce, steps, front);
      RunMore(nonce, steps + front, last);
    }
  }

  lemma {:induction false} NobodyJoins(nonce: string, log: seq<Event>, a: nat, b: nat)
    requires AllExplained(nonce, log) && a <= b <= |log| && forall i :: a <= i < b ==> !log[i].Issued?
    ensures Waiting(log[..b]) <= Waiting(log[..a]) && Issues(log[..b]) == Issues(log[..a])
    decreases b
  {
    if a == b {
    } else {
      LogMore(log[..b - 1], log[b - 1]);
      assert log[..b] == log[..b - 1] + [log[b - 1]];
      NobodyJoins(nonce, log, a, b - 1);
    }
  }

  /** A question asked while nobody waits gets its own verdict, and with it every return until the next question. */
  lemma BeginAloneIsSafe(nonce: string, steps: seq<Step>, rest: seq<Step>)
    requires var s := Run(nonce, steps); !Flag(s.log) && s.open == {}
    requires NoBegin(rest)
    ensures OwnVerdicts(Run(nonce, steps + [Begin] + rest).log, |Run(nonce, steps).log|)
  {
    hide Issues, Pending, Flag, Answers, Waiting, Token, Run;
    var s := Run(nonce, steps);
    var log := Run(nonce, steps + [Begin] + rest).log;
    var issued := Issued(s.waits + 1, Begun(s.gate).pending);
    EveryRunIsExplained(nonce, steps);
    EveryRunIsExplained(nonce, steps + [Begin] + rest);
    RunMore(nonce, steps, Begin);
    LogMore(s.log, issued);
    NoBeginIssuesNothing(nonce, steps + [Begin], rest);
    var n := |s.log|;
    assert log[..n + 1] == s.log + [issued] && log[n] == issued;
    forall i | n <= i < |log| && log[i].Returned? ensures log[i].result == OwnVerdict(log, log[i].wait, i) {
      NobodyJoins(nonce, log, n + 1, i);
      assert Explained(nonce, log[..i], log[i]);
      NewestWaitDecides(nonce, steps + [Begin] + rest, i);
    }
  }

  /** A question asked while another wait blocks can make that wait return what is not its verdict. */
  lemma BeginBesideMisleads(nonce: string, steps: seq<Step>, wait: nat) returns (rest: seq<Step>)
    requires var s := Run(nonce, steps); !Flag(s.log) && wait in s.open
    ensures NoBegin(rest)
    ensures !OwnVerdicts(Run(nonce, steps + [Begin] + rest).log, |Run(nonce, steps).log|)
  {
    hide Issues, Pending, Flag, Answers, Waiting, Token, Run;
    var s := Run(nonce, steps);
    var token := Token(nonce, (s.waits + 1) % WRAP);
    if Answers(s.log, wait) == [true] {
      rest := [Wake(wait, true)];
      ApprovalIsForgotten(nonce, steps, wait);
      var log := Run(nonce, steps + [Begin] + rest).log;
      var i := |log| - 1;
      LogMore(log[..i], log[i]);
      assert log == log[..i] + [log[i]] && log[i] == Returned(wait, false);
      assert OwnVerdict(log, wait, i);
    } else {
      rest := [Reply(token, true)] + [Wake(wait, false)];
      LaterApprovalIsTaken(nonce, steps, wait);
      assert steps + [Begin] + rest == steps + [Begin] + [Reply(token, true)] + [Wake(wait, false)];
      var log := Run(nonce, steps + [Begin] + rest).log;
      var i := |log| - 1;
      assert log[i] == Returned(wait, true) && !OwnVerdict(log, wait, i);
    }
  }

  /**
   * The rule a caller has to keep, exactly: on an uncancelled gate one more question is safe if and
   * only if nobody waits. It is safe when, until the next question, every return is the wait's own.
   */
  lemma BeginIsSafeExactly(nonce: string, steps: seq<Step>)
    requires !Flag(Run(nonce, steps).log)
    ensures Run(nonce, steps).open == {} <==>
            forall rest :: NoBegin(rest) ==>
              OwnVerdicts(Run(nonce, steps + [Begin] + rest).log, |Run(nonce, steps).log|)
  {
    hide Run, Flag, OwnVerdicts;
    var s := Run(nonce, steps);
    if s.open == {} {
      forall rest | NoBegin(rest) ensures OwnVerdicts(Run(nonce, steps + [Begin] + rest).log, |s.log|) {
        BeginAloneIsSafe(nonce, steps, rest);
      }
    } else {
      var wait :| wait in s.open;
      var rest := BeginBesideMisleads(nonce, steps, wait);
    }
  }

  /** A wait that returns empties the slot: those that still wait can then not be answered any more. */
  lemma ReturnShutsOthersOut(nonce: string, steps: seq<Step>, wait: nat, other: nat, id: string, approve: bool)
    requires var s := Run(nonce, steps); wait in s.open && other in s.open && wait != other
    ensures var s := Run(nonce, steps);
            var t := Run(nonce, steps + [Wake(wait, true)] + [Reply(id, approve)]);
            && t.log == s.log + [Returned(wait, Verdict(s.gate))] + [Rejected(id)]
            && other in t.open
  {
    hide Run;
    RunMore(nonce, steps, Wake(wait, true));
    RunMore(nonce, steps + [Wake(wait, true)], Reply(id, approve));
  }

  // ---- cancelling ----

  lemma {:induction false} FlagAfterCancel(log: seq<Event>, c: nat, n: nat)
    requires c < n <= |log| && log[c].Raised?
    ensures !Flag(log[..n]) <==>
            exists r :: c < r < n && log[r].Lowered? && forall m :: r < m < n ==> !log[m].Raised?
    decreases n
  {
    LogMore(log[..n - 1], log[n - 1]);
    assert log[..n] == log[..n - 1] + [log[n - 1]];
    if c < n - 1 {
      FlagAfterCancel(log, c, n - 1);
    }
  }

  /** After a cancel, as long as no reset has followed, every open wait returns false without a timeout. */
  lemma CancelUnblocks(nonce: string, steps: seq<Step>, c: nat, wait: nat)
    requires var s := Run(nonce, steps);
             && c < |s.log| && s.log[c].Raised? && (forall r :: c < r < |s.log| ==> !s.log[r].Lowered?)
             && wait in s.open
    ensures var s, t := Run(nonce, steps), Run(nonce, steps + [Wake(wait, false)]);
            t.log == s.log + [Returned(wait, false)] && t.open == s.open - {wait} && t.gate.cancelled
  {
    hide Run, Flag;
    var log := Run(nonce, steps).log;
    EveryRunIsExplained(nonce, steps);
    FlagAfterCancel(log, c, |log|);
    assert log[..|log|] == log;
    RunMore(nonce, steps, Wake(wait, false));
  }

  /**
   * A cancel raised before a wait returns decides it unless it is taken back: the wait returns true
   * exactly when the newest wait is approved and a reset, with no cancel after it, lies in between.
   */
  lemma CancelDecidesUnlessReset(nonce: string, steps: seq<Step>, c: nat, i: nat)
    requires var log := Run(nonce, steps).log; c < i < |log| && log[c].Raised? && log[i].Returned?
    ensures var log := Run(nonce, steps).log;
            log[i].result <==>
            && Answers(log, Issues(log[..i])) == [true]
            && exists r :: c < r < i && log[r].Lowered? && forall m :: r < m < i ==> !log[m].Raised?
  {
    hide Issues, Answers, Run, Flag;
    var log := Run(nonce, steps).log;
    NewestWaitDecides(nonce, steps, i);
    FlagAfterCancel(log, c, i);
  }

  /**
   * A reset that overtakes the woken waiter loses the cancel: whenever the slot holds an unanswered
   * token, cancel, reset and an approval make its wait return true.
   */
  lemma CancelCanBeOvertaken(nonce: string, steps: seq<Step>)
    requires var log := Run(nonce, steps).log; Pending(log) && Answers(log, Issues(log)) == []
    ensures var s := Run(nonce, steps);
            var token := s.gate.pending;
            var t := Run(nonce, steps + [CancelIt] + [ResetIt] + [Reply(token, true)] + [Wake(s.waits, false)]);
            t.log == s.log + [Raised] + [Lowered] + [Accepted(s.waits, token, true)] + [Returned(s.waits, true)]
  {
    hide Issues, Pending, Flag, Answers, Waiting, Token, Run;
    var s := Run(nonce, steps);
    var token := s.gate.pending;
    EveryRunIsExplained(nonce, steps);
    TokenNotEmpty(nonce, s.waits % WRAP);
    RunMore(nonce, steps, CancelIt);
    RunMore(nonce, steps + [CancelIt], ResetIt);
    RunMore(nonce, steps + [CancelIt] + [ResetIt], Reply(token, true));
    RunMore(nonce, steps + [CancelIt] + [ResetIt] + [Reply(token, true)], Wake(s.waits, false));
  }

  // ---- tokens ----

  /** The waits of a run are numbered in order. */
  lemma WaitsAreDistinct(nonce: string, log: seq<Event>, i: nat, j: nat)
    requires AllExplained(nonce, log) && i < j < |log| && log[i].Issued? && log[j].Issued?
    ensures log[i].wait < log[j].wait
  {
    LaterWaits(nonce, log, i, j);
    assert Explained(nonce, log[..j], log[j]);
  }

  lemma TokenInjective(nonce: string, a: nat, b: nat)
    ensures Token(nonce, a) == Token(nonce, b) <==> a == b
  {
    if Token(nonce, a) == Token(nonce, b) {
      var front := "change-" + nonce + "-";
      assert Token(nonce, a)[|front|..] == Decimal(a) && Token(nonce, b)[|front|..] == Decimal(b);
      DecimalInjective(a, b);
    }
  }

  lemma SameRemainder(a: nat, b: nat)
    requires a < b
    ensures a % WRAP == b % WRAP <==> (b - a) % WRAP == 0
  {
    var qa, qb, q := a / WRAP, b / WRAP, (b - a) / WRAP;
    assert a == qa * WRAP + a % WRAP && b == qb * WRAP + b % WRAP && b - a == q * WRAP + (b - a) % WRAP;
    assert b - a == (qb - qa) * WRAP + (b % WRAP - a % WRAP);
  }

  /** Two tokens of a run are equal exactly when 2^64 divides the distance of their waits. */
  lemma TokensRepeatExactly(nonce: string, steps: seq<Step>, i: nat, j: nat)
    requires var log := Run(nonce, steps).log; i < j < |log| && log[i].Issued? && log[j].Issued?
    ensures var log := Run(nonce, steps).log;
            && log[i].wait < log[j].wait
            && (log[i].token == log[j].token <==> (log[j].wait - log[i].wait) % 0x1_0000_0000_0000_0000 == 0)
  {
    hide Run, Token, Pending, Waiting, Flag, Issues, Answers;
    var log := Run(nonce, steps).log;
    EveryRunIsExplained(nonce, steps);
    WaitsAreDistinct(nonce, log, i, j);
    assert Explained(nonce, log[..i], log[i]) && Explained(nonce, log[..j], log[j]);
    TokenInjective(nonce, log[i].wait % WRAP, log[j].wait % WRAP);
    SameRemainder(log[i].wait, log[j].wait);
  }

  lemma DistinctUpToWrap(a: nat, b: nat)
    requires 1 <= a <= WRAP && 1 <= b <= WRAP
    ensures a % WRAP == b % WRAP <==> a == b
  {
  }

  /**
   * An accepted answer carries the token of a wait that is open, so as long as no token repeats it
   * answers exactly the wait whose token it carries; with no wait open nothing is accepted.
   */
  lemma AnswersReachTheirOwnWait(nonce: string, steps: seq<Step>, i: nat, j: nat)
    requires var log := Run(nonce, steps).log; i < |log| && j < |log| && log[i].Accepted? && log[j].Issued?
    requires Issues(Run(nonce, steps).log) <= 0x1_0000_0000_0000_0000
    ensures var log := Run(nonce, steps).log;
            && log[i].wait in Waiting(log[..i])
            && (log[i].id == log[j].token <==> log[i].wait == log[j].wait)
  {
    hide Run, Token, Pending, Waiting, Flag, Issues, Answers;
    var log := Run(nonce, steps).log;
    EveryRunIsExplained(nonce, steps);
    assert log[..|log|] == log;
    assert Explained(nonce, log[..i], log[i]) && Explained(nonce, log[..j], log[j]);
    LaterWaits(nonce, log, i, |log|);
    LaterWaits(nonce, log, j, |log|);
    WaitingIsIssued(nonce, log, i);
    var a, b := log[i].wait, log[j].wait;
    TokenInjective(nonce, a % WRAP, b % WRAP);
    DistinctUpToWrap(a, b);
  }
}
