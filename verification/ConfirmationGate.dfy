/**
 * The confirmation gate: one mutex-protected slot for a pending question. Each locked region is
 * one atomic step; `wait` has two, up to the blocking call and from its return on.
 */
module ConfirmationGates {
  import opened Options
  import opened Decimals

  /** The sequence counter is 64 bits wide. */
  const WRAP: nat := 0x1_0000_0000_0000_0000

  datatype Gate = Gate(nonce: string, sequence: nat, pending: string,
                       answered: bool, approved: bool, cancelled: bool)

  function Token(nonce: string, sequence: nat): string {
    "change-" + nonce + "-" + Decimal(sequence)
  }

  /** An answer is taken exactly for the pending token, once, and while not cancelled. */
  predicate Takes(g: Gate, id: string) {
    id != "" && id == g.pending && !g.answered && !g.cancelled
  }

  function Answered(g: Gate, id: string, approved: bool): Gate {
    if Takes(g, id) then g.(answered := true, approved := approved) else g
  }

  /** The state in which a wait blocks, unless it is refused at once. */
  function Begun(g: Gate): Gate {
    if g.cancelled then g
    else
      var next := (g.sequence + 1) % WRAP;
      g.(sequence := next, pending := Token(g.nonce, next), answered := false, approved := false)
  }

  function Verdict(g: Gate): bool {
    g.answered && g.approved && !g.cancelled
  }

  class ConfirmationGate {
    const nonce: string
    var sequence: nat
    var pending: string
    var answered: bool
    var approved: bool
    var cancelled: bool

    function View(): Gate
      reads this
    {
      Gate(nonce, sequence, pending, answered, approved, cancelled)
    }

    constructor (nonce: string)
      ensures View() == Gate(nonce, 0, "", false, false, false)
    {
      this.nonce := nonce;
      sequence, pending, answered, approved, cancelled := 0, "", false, false, false;
    }

    method Reset()
      modifies this
      ensures View() == old(View()).(cancelled := false)
    {
      cancelled := false;
    }

    method Cancel()
      modifies this
      ensures View() == old(View()).(cancelled := true)
    {
      cancelled := true;
    }

    method Answer(id: string, approve: bool) returns (accepted: bool)
      modifies this
      ensures View() == Answered(old(View()), id, approve) && accepted == Takes(old(View()), id)
    {
      if id == "" || id != pending || answered || cancelled {
        return false;
      }
      answered := true;
      approved := approve;
      accepted := true;
    }

    /** The first region of `wait`: the emitted token, or none when it returns false at once. */
    method BeginWait() returns (token: Option<string>)
      modifies this
      ensures View() == Begun(old(View()))
      ensures token == if old(cancelled) then None else Some(pending)
      ensures !old(cancelled) ==> sequence == (old(sequence) + 1) % 0x1_0000_0000_0000_0000
      ensures !old(cancelled) ==> pending == "change-" + nonce + "-" + Decimal(sequence) && !answered && !approved
    {
      if cancelled {
        return None;
      }
      sequence := (sequence + 1) % WRAP;
      pending := Token(nonce, sequence);
      answered, approved := false, false;
      token := Some(pending);
    }

    /** The second region of `wait`, after it was woken or timed out. */
    method EndWait() returns (result: bool)
      modifies this
      ensures View() == old(View()).(pending := "") && result == Verdict(old(View()))
    {
      result := answered && approved && !cancelled;
      pending := "";
    }
  }

  // ---- runs ----

  /** `wait` is the ordinal of the wait that a step or an event belongs to. */
  datatype Step = Begin | Reply(id: string, approve: bool) | CancelIt | ResetIt | Wake(wait: nat, timeout: bool)

  datatype Event =
    | Issued(wait: nat, token: string)
    | Refused
    | Accepted(wait: nat, id: string, approve: bool)
    | Rejected(id: string)
    | Raised
    | Lowered
    | Returned(wait: nat, result: bool)

  /** Any number of waits may block at the same time; `open` are those that do. */
  datatype System = System(gate: Gate, waits: nat, open: set<nat>, log: seq<Event>)

  function Start(nonce: string): System {
    System(Gate(nonce, 0, "", false, false, false), 0, {}, [])
  }

  /** A step that is not possible leaves the system as it is. */
  function Next(s: System, step: Step): System {
    var g := s.gate;
    match step
    case Begin =>
      if g.cancelled then s.(log := s.log + [Refused])
      else System(Begun(g), s.waits + 1, s.open + {s.waits + 1}, s.log + [Issued(s.waits + 1, Begun(g).pending)])
    case Reply(id, approve) =>
      s.(gate := Answered(g, id, approve),
         log := s.log + [if Takes(g, id) then Accepted(s.waits, id, approve) else Rejected(id)])
    case CancelIt => s.(gate := g.(cancelled := true), log := s.log + [Raised])
    case ResetIt => s.(gate := g.(cancelled := false), log := s.log + [Lowered])
    case Wake(wait, timeout) =>
      if wait in s.open && (timeout || g.answered || g.cancelled)
      then System(g.(pending := ""), s.waits, s.open - {wait}, s.log + [Returned(wait, Verdict(g))])
      else s
  }

  function Run(nonce: string, steps: seq<Step>): System {
    if steps == [] then Start(nonce) else Next(Run(nonce, steps[..|steps| - 1]), steps[|steps| - 1])
  }

  // ---- reading a log ----

  function Issues(log: seq<Event>): nat {
    if log == [] then 0 else Issues(log[..|log| - 1]) + if log[|log| - 1].Issued? then 1 else 0
  }

  /** The waits that have begun and not yet returned. */
  function Waiting(log: seq<Event>): set<nat> {
    if log == [] then {}
    else
      var before := Waiting(log[..|log| - 1]);
      match log[|log| - 1]
      case Issued(wait, _) => before + {wait}
      case Returned(wait, _) => before - {wait}
      case _ => before
  }

  /** The slot holds a token: a wait has begun, and no wait has returned since. */
  predicate Pending(log: seq<Event>) {
    log != [] && match log[|log| - 1]
                 case Issued(_, _) => true
                 case Returned(_, _) => false
                 case _ => Pending(log[..|log| - 1])
  }

  /** Cancelled, and not reset since. */
  predicate Flag(log: seq<Event>) {
    log != [] && match log[|log| - 1]
                 case Raised => true
                 case Lowered => false
                 case _ => Flag(log[..|log| - 1])
  }

  /** The answers accepted for one wait, in order. */
  function Answers(log: seq<Event>, wait: nat): seq<bool> {
    if log == [] then []
    else
      var e := log[|log| - 1];
      Answers(log[..|log| - 1], wait) + if e.Accepted? && e.wait == wait then [e.approve] else []
  }

  /** Answering is possible: the slot holds this token, uncancelled and unanswered. */
  predicate Acceptable(nonce: string, log: seq<Event>, id: string) {
    Pending(log) && !Flag(log) && Answers(log, Issues(log)) == [] && id == Token(nonce, Issues(log) % WRAP)
  }

  /** What each event says about the log before it. */
  predicate Explained(nonce: string, log: seq<Event>, e: Event) {
    match e
    case Issued(wait, token) => !Flag(log) && wait == Issues(log) + 1 && token == Token(nonce, wait % WRAP)
    case Refused => Flag(log)
    case Accepted(wait, id, _) => Acceptable(nonce, log, id) && wait == Issues(log)
    case Rejected(id) => !Acceptable(nonce, log, id)
    case Returned(wait, result) =>
      wait in Waiting(log) && (result <==> Answers(log, Issues(log)) == [true] && !Flag(log))
    case _ => true
  }

  ghost predicate AllExplained(nonce: string, log: seq<Event>) {
    forall i :: 0 <= i < |log| ==> Explained(nonce, log[..i], log[i])
  }

  /** The gate's fields, read off the log. */
  ghost predicate Agrees(nonce: string, s: System) {
    var log, g := s.log, s.gate;
    && g.nonce == nonce && s.waits == Issues(log) && g.sequence == s.waits % WRAP
    && s.open == Waiting(log) && g.cancelled == Flag(log)
    && g.pending == (if Pending(log) then Token(nonce, s.waits % WRAP) else "")
    && (Pending(log) ==> s.waits in s.open)
    && (forall w :: w in s.open ==> 1 <= w <= s.waits)
    && Answers(log, s.waits) == (if g.answered then [g.approved] else [])
    && forall w :: w > s.waits ==> Answers(log, w) == []
  }

  lemma LogMore(log: seq<Event>, e: Event)
    ensures var more := log + [e];
            && Issues(more) == Issues(log) + (if e.Issued? then 1 else 0)
            && Pending(more) == (if e.Issued? then true else if e.Returned? then false else Pending(log))
            && Flag(more) == (if e.Raised? then true else if e.Lowered? then false else Flag(log))
            && Waiting(more) == (if e.Issued? then Waiting(log) + {e.wait}
                                 else if e.Returned? then Waiting(log) - {e.wait} else Waiting(log))
            && forall w :: Answers(more, w) == Answers(log, w) + if e.Accepted? && e.wait == w then [e.approve] else []
  {
    assert (log + [e])[..|log|] == log;
  }

  lemma ExplainedMore(nonce: string, log: seq<Event>, e: Event)
    requires AllExplained(nonce, log) && Explained(nonce, log, e)
    ensures AllExplained(nonce, log + [e])
  {
    var more := log + [e];
    forall i | 0 <= i < |more| ensures Explained(nonce, more[..i], more[i]) {
      assert more[..i] == log[..i];
      assert i == |log| ==> log[..i] == log;
    }
  }

  /** The step adds this event, and with it the invariant goes on to hold. */
  ghost predicate Keeps(nonce: string, s: System, step: Step, e: Event) {
    && Next(s, step).log == s.log + [e] && Explained(nonce, s.log, e)
    && Agrees(nonce, Next(s, step))
  }

  lemma NextOrdinal(waits: nat)
    ensures (waits % WRAP + 1) % WRAP == (waits + 1) % WRAP
  {
  }

  lemma BeginKeeps(nonce: string, s: System)
    requires Agrees(nonce, s)
    ensures Keeps(nonce, s, Begin, if s.gate.cancelled then Refused else Issued(s.waits + 1, Begun(s.gate).pending))
  {
    hide Issues, Pending, Flag, Answers, Waiting, Token;
    LogMore(s.log, if s.gate.cancelled then Refused else Issued(s.waits + 1, Begun(s.gate).pending));
    NextOrdinal(s.waits);
  }

  lemma TokenNotEmpty(nonce: string, sequence: nat)
    ensures Token(nonce, sequence) != ""
  {
    assert Token(nonce, sequence)[0] == 'c';
  }

  lemma ReplyKeeps(nonce: string, s: System, id: string, approve: bool)
    requires Agrees(nonce, s)
    ensures Keeps(nonce, s, Reply(id, approve),
                  if Takes(s.gate, id) then Accepted(s.waits, id, approve) else Rejected(id))
  {
    hide Issues, Pending, Flag, Answers, Waiting, Token;
    TokenNotEmpty(nonce, s.waits % WRAP);
    LogMore(s.log, if Takes(s.gate, id) then Accepted(s.waits, id, approve) else Rejected(id));
  }

  lemma WakeKeeps(nonce: string, s: System, wait: nat, timeout: bool)
    requires Agrees(nonce, s) && wait in s.open && (timeout || s.gate.answered || s.gate.cancelled)
    ensures Keeps(nonce, s, Wake(wait, timeout), Returned(wait, Verdict(s.gate)))
  {
    hide Issues, Pending, Flag, Answers, Waiting, Token;
    LogMore(s.log, Returned(wait, Verdict(s.gate)));
  }

  lemma FlagKeeps(nonce: string, s: System)
    requires Agrees(nonce, s)
    ensures Keeps(nonce, s, CancelIt, Raised) && Keeps(nonce, s, ResetIt, Lowered)
  {
    hide Issues, Pending, Flag, Answers, Waiting, Token;
    LogMore(s.log, Raised);
    LogMore(s.log, Lowered);
  }

  lemma StepKeeps(nonce: string, s: System, step: Step)
    requires Agrees(nonce, s) && AllExplained(nonce, s.log)
    ensures Agrees(nonce, Next(s, step)) && AllExplained(nonce, Next(s, step).log)
  {
    hide Agrees, AllExplained, Explained;
    match step {
      case Begin => BeginKeeps(nonce, s);
      case Reply(id, approve) => ReplyKeeps(nonce, s, id, approve);
      case Wake(wait, timeout) =>
        if wait in s.open && (timeout || s.gate.answered || s.gate.cancelled) { WakeKeeps(nonce, s, wait, timeout); }
      case _ => FlagKeeps(nonce, s);
    }
    if Next(s, step).log != s.log {
      ExplainedMore(nonce, s.log, Next(s, step).log[|s.log|]);
    }
  }

  /** In every run, with however many waits at once, every event is explained by the log before it. */
  lemma {:induction false} EveryRunIsExplained(nonce: string, steps: seq<Step>)
    ensures Agrees(nonce, Run(nonce, steps)) && AllExplained(nonce, Run(nonce, steps).log)
  {
    if steps == [] {
    } else {
      EveryRunIsExplained(nonce, steps[..|steps| - 1]);
      StepKeeps(nonce, Run(nonce, steps[..|steps| - 1]), steps[|steps| - 1]);
    }
  }

  lemma RunMore(nonce: string, steps: seq<Step>, step: Step)
    ensures Run(nonce, steps + [step]) == Next(Run(nonce, steps), step)
  {
    assert (steps + [step])[..|steps|] == steps;
  }
}
