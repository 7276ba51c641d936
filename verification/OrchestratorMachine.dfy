/**
 * The orchestrator under concurrent cancellation: a worker inside a workflow or inside a single agent
 * execution, other callers of either, and any number of cancellers, interleaved between any two reads
 * and writes of the shared fields.
 */
module OrchestratorMachine {
  import opened Options
  import opened AgentResults

  datatype Status = Done | FailedFlow | CancelledFlow | Declined | InputNeeded | ConfirmationNeeded
  datatype Decision = Proceed | Decline | CancelFlow

  function StatusOf(status: AgentStatus): Status {
    match status
    case Completed => Done
    case Failed => FailedFlow
    case Cancelled => CancelledFlow
    case NeedsInput => InputNeeded
    case NeedsConfirmation => ConfirmationNeeded
  }

  /** The four places where the worker reads the cancel flag. */
  datatype Point = AtHead | BeforeRun | AfterRun | AfterDecision

  /** The mutex around the runtime pointer, and what a canceller that holds it has read. */
  datatype Lock = Free | Held(pointer: Option<nat>)

  datatype Pc =
    | Idle
    | Entered(ready: bool)       // busy flag set, cancel flag not yet cleared
    | Checking(ready: bool)      // preflight checks
    | Head                       // reading the flag before a stage
    | Building                   // calling the runtime factory
    | Publishing                 // setting the runtime pointer
    | Starting                   // start callback
    | Gating                     // reading the flag before the run
    | Launching                  // about to call the runtime
    | Running
    | Retracting(status: AgentStatus) // clearing the pointer after the run
    | Abandoning                 // clearing the pointer without a run
    | Reporting(status: AgentStatus)  // record and finish callback
    | Judging(status: AgentStatus)    // reading the flag after the run
    | Between                    // continuation callback
    | Deciding(decision: Decision)    // reading the flag after the decision
    | Unwinding(result: Status)  // the runtime is destroyed
    | Exiting(result: Status)    // the busy flag is cleared

  datatype Event =
    | Reset
    | Stored
    | Busy
    | Looked(point: Point, stage: nat, seen: bool)
    | Began(stage: nat)
    | Poked(alive: bool)
    | Ended(solo: bool, result: Status)

  /** `active` is the shared pointer; `alive` the runtime that exists, if any; `solo` a single agent execution. */
  datatype State = State(executing: bool, cancel: bool, active: Option<nat>, lock: Lock, cancellers: nat,
                         alive: Option<nat>, created: nat, solo: bool, pc: Pc, index: nat, records: nat,
                         log: seq<Event>)

  const START := State(false, false, None, Free, 0, None, 0, false, Idle, 0, 0, [])

  /** What the environment decides in one worker step. */
  datatype Choice = Choice(throws: bool, present: bool, status: AgentStatus, decision: Decision)

  datatype Action =
    | Call(ready: bool, solo: bool) // some thread calls; ready tells whether preflight passes
    | Work(choice: Choice)       // the worker makes one step
    | Store                      // a canceller stores the flag
    | Acquire                    // a canceller takes the mutex and reads the pointer
    | Poke                       // it calls the runtime it read
    | Release                    // it releases the mutex

  function Note(s: State, e: Event): State {
    s.(log := s.log + [e])
  }

  function Look(s: State, point: Point, yes: Pc, no: Pc): State {
    Note(s, Looked(point, s.index, s.cancel)).(pc := if s.cancel then yes else no)
  }

  /** The end of a stage: its runtime goes away, and the next stage or the end follows. */
  function Advance(s: State): State {
    s.(alive := None, index := s.index + 1, pc := if s.index + 1 < 4 then Head else Exiting(Done))
  }

  /** One worker step; the steps on the pointer wait for the mutex. */
  function Step(s: State, c: Choice): State {
    match s.pc
    case Idle => s
    case Entered(ready) => Note(s, Reset).(cancel := false, pc := Checking(ready))
    case Checking(ready) =>
      s.(pc := if !ready then Exiting(FailedFlow) else if s.solo then Building else Head, index := 0, records := 0)
    case Head => Look(s, AtHead, Unwinding(CancelledFlow), Building)
    case Building =>
      if c.throws || !c.present then s.(pc := Unwinding(FailedFlow))
      else s.(alive := Some(s.created), created := s.created + 1, pc := Publishing)
    case Publishing => if s.lock.Held? then s else s.(active := s.alive, pc := if s.solo then Gating else Starting)
    case Starting => s.(pc := if c.throws then Retracting(Failed) else Gating)
    case Gating => Look(s, BeforeRun, if s.solo then Retracting(Cancelled) else Abandoning, Launching)
    case Launching => Note(s, Began(s.index)).(pc := Running)
    case Running => s.(pc := Retracting(if c.throws then Failed else c.status))
    case Retracting(status) =>
      if s.lock.Held? then s else s.(active := None, pc := if s.solo then Judging(status) else Reporting(status))
    case Abandoning => if s.lock.Held? then s else s.(active := None, pc := Unwinding(CancelledFlow))
    case Reporting(status) =>
      s.(records := s.records + 1, pc := if c.throws then Unwinding(FailedFlow) else Judging(status))
    case Judging(status) =>
      Look(s, AfterRun, Unwinding(CancelledFlow),
           if status == Completed && !s.solo then Between else Unwinding(StatusOf(status)))
    case Between =>
      if s.index + 1 < 4 && c.present
      then s.(pc := if c.throws then Unwinding(FailedFlow) else Deciding(c.decision))
      else Advance(s)
    case Deciding(decision) =>
      var t := Note(s, Looked(AfterDecision, s.index, s.cancel));
      if s.cancel || decision == CancelFlow then t.(pc := Unwinding(CancelledFlow))
      else if decision == Decline then t.(pc := Unwinding(Declined))
      else Advance(t)
    case Unwinding(result) => s.(alive := None, pc := Exiting(result))
    case Exiting(result) => Note(s, Ended(s.solo, result)).(executing := false, pc := Idle)
  }

  function Next(s: State, a: Action): State {
    match a
    case Call(ready, solo) =>
      if s.executing then Note(s, Busy) else s.(executing := true, solo := solo, pc := Entered(ready))
    case Work(c) => Step(s, c)
    case Store => Note(s, Stored).(cancel := true, cancellers := s.cancellers + 1)
    case Acquire => if s.cancellers > 0 && s.lock.Free? then s.(lock := Held(s.active)) else s
    case Poke =>
      if s.lock.Held? && s.lock.pointer.Some? then Note(s, Poked(s.alive == s.lock.pointer)) else s
    case Release =>
      if s.lock.Held? && s.cancellers > 0 then s.(lock := Free, cancellers := s.cancellers - 1) else s
  }

  function Run(actions: seq<Action>): State {
    if actions == [] then START else Next(Run(actions[..|actions| - 1]), actions[|actions| - 1])
  }

  // ---- reading a log ----

  /** A cancel was stored, and no run has reset the flag since. */
  predicate Raised(log: seq<Event>) {
    log != [] && match log[|log| - 1]
                 case Stored => true
                 case Reset => false
                 case _ => Raised(log[..|log| - 1])
  }

  predicate ByWorker(e: Event) {
    e.Reset? || e.Looked? || e.Began? || e.Ended?
  }

  /** The worker's last event. */
  function LastOfWorker(log: seq<Event>): Option<Event> {
    if log == [] then None
    else if ByWorker(log[|log| - 1]) then Some(log[|log| - 1])
    else LastOfWorker(log[..|log| - 1])
  }

  /** The last stage of a workflow; a single execution has only one. */
  function LastStage(solo: bool): nat {
    if solo then 0 else 3
  }

  /** What each event says about the log before it. */
  predicate Explained(log: seq<Event>, e: Event) {
    match e
    case Looked(_, _, seen) => seen == Raised(log)
    case Began(stage) => stage < 4 && LastOfWorker(log) == Some(Looked(BeforeRun, stage, false))
    case Poked(alive) => alive
    case Ended(solo, result) => result == Done ==> LastOfWorker(log) == Some(Looked(AfterRun, LastStage(solo), false))
    case _ => true
  }

  ghost predicate AllExplained(log: seq<Event>) {
    forall i :: 0 <= i < |log| ==> Explained(log[..i], log[i])
  }

  // ---- the inductive invariant ----

  predicate PointerSet(pc: Pc) {
    pc.Starting? || pc.Gating? || pc.Launching? || pc.Running? || pc.Retracting? || pc.Abandoning?
  }

  predicate WorkflowOnly(pc: Pc) {
    pc.Head? || pc.Starting? || pc.Abandoning? || pc.Reporting? || pc.Between? || pc.Deciding?
  }

  predicate AfterRecord(pc: Pc) {
    pc.Judging? || pc.Between? || pc.Deciding?
  }

  predicate InStage(pc: Pc) {
    !(pc.Idle? || pc.Entered? || pc.Checking? || pc.Unwinding? || pc.Exiting?)
  }

  /** The fields, read off the program counter and the log. */
  predicate Consistent(s: State) {
    && s.cancel == Raised(s.log)
    && (s.pc.Idle? <==> !s.executing)
    && s.active == (if PointerSet(s.pc) then s.alive else None)
    && (PointerSet(s.pc) || s.pc.Publishing? ==> s.alive.Some?)
    && (s.alive.Some? ==> s.created > 0 && s.alive.value == s.created - 1)
    && (s.lock.Held? ==> s.lock.pointer == s.active)
    && (!(s.pc.Idle? || s.pc.Entered? || s.pc.Checking? || s.pc.Exiting?) ==> s.index < 4)
    && (s.pc.Launching? ==> LastOfWorker(s.log) == Some(Looked(BeforeRun, s.index, false)))
    && (s.pc.Between? || s.pc.Deciding? ==> LastOfWorker(s.log) == Some(Looked(AfterRun, s.index, false)))
    && (s.pc.Exiting? && s.pc.result == Done ==>
          LastOfWorker(s.log) == Some(Looked(AfterRun, LastStage(s.solo), false)))
    && (s.pc.Exiting? && s.pc.result == Done && !s.solo ==> s.records == 4)
    && (s.pc.Deciding? ==> s.index + 1 < 4)
    && (s.pc.Unwinding? && s.pc.result == Done ==> s.solo && LastOfWorker(s.log) == Some(Looked(AfterRun, 0, false)))
    && (s.solo ==> !WorkflowOnly(s.pc) && (InStage(s.pc) ==> s.index == 0))
    && (InStage(s.pc) && !s.solo ==> s.records == s.index + if AfterRecord(s.pc) then 1 else 0)
  }

  lemma LogMore(log: seq<Event>, e: Event)
    ensures Raised(log + [e]) == (if e.Stored? then true else if e.Reset? then false else Raised(log))
    ensures LastOfWorker(log + [e]) == if ByWorker(e) then Some(e) else LastOfWorker(log)
    ensures AllExplained(log) && Explained(log, e) ==> AllExplained(log + [e])
  {
    var more := log + [e];
    assert more[..|log|] == log;
    if AllExplained(log) && Explained(log, e) {
      forall i | 0 <= i < |more| ensures Explained(more[..i], more[i]) {
        assert more[..i] == log[..i];
        assert i == |log| ==> log[..i] == log;
      }
    }
  }

  /** The worker's steps up to the run of a stage. */
  predicate Early(pc: Pc) {
    pc.Idle? || pc.Entered? || pc.Checking? || pc.Head? || pc.Building? || pc.Publishing? || pc.Starting? || pc.Gating?
  }

  lemma EarlyStepKeeps(s: State, c: Choice)
    requires Consistent(s) && AllExplained(s.log) && Early(s.pc)
    ensures Consistent(Step(s, c)) && AllExplained(Step(s, c).log)
  {
    hide Raised, LastOfWorker, AllExplained;
    var t := Step(s, c);
    if t.log != s.log {
      LogMore(s.log, if s.pc.Entered? then Reset
                     else Looked(if s.pc.Head? then AtHead else BeforeRun, s.index, s.cancel));
    }
  }

  /** The worker's steps from the run to the record. */
  predicate Middle(pc: Pc) {
    pc.Launching? || pc.Running? || pc.Retracting? || pc.Abandoning? || pc.Reporting?
  }

  lemma MiddleStepKeeps(s: State, c: Choice)
    requires Consistent(s) && AllExplained(s.log) && Middle(s.pc)
    ensures Consistent(Step(s, c)) && AllExplained(Step(s, c).log)
  {
    hide Raised, LastOfWorker, AllExplained;
    LogMore(s.log, Began(s.index));
  }

  lemma JudgingKeeps(s: State, c: Choice)
    requires Consistent(s) && AllExplained(s.log) && s.pc.Judging?
    ensures Consistent(Step(s, c)) && AllExplained(Step(s, c).log)
  {
    hide Raised, LastOfWorker, AllExplained;
    LogMore(s.log, Looked(AfterRun, s.index, s.cancel));
  }

  lemma BetweenKeeps(s: State, c: Choice)
    requires Consistent(s) && AllExplained(s.log) && (s.pc.Between? || s.pc.Deciding?)
    ensures Consistent(Step(s, c)) && AllExplained(Step(s, c).log)
  {
    hide Raised, LastOfWorker, AllExplained;
    LogMore(s.log, Looked(AfterDecision, s.index, s.cancel));
  }

  lemma LeavingKeeps(s: State, c: Choice)
    requires Consistent(s) && AllExplained(s.log) && (s.pc.Unwinding? || s.pc.Exiting?)
    ensures Consistent(Step(s, c)) && AllExplained(Step(s, c).log)
  {
    hide Raised, LastOfWorker, AllExplained;
    if s.pc.Exiting? { LogMore(s.log, Ended(s.solo, s.pc.result)); }
  }

  lemma NextKeeps(s: State, a: Action)
    requires Consistent(s) && AllExplained(s.log)
    ensures Consistent(Next(s, a)) && AllExplained(Next(s, a).log)
  {
    hide Raised, LastOfWorker, AllExplained, Step;
    match a {
      case Work(c) =>
        if Early(s.pc) { EarlyStepKeeps(s, c); }
        else if Middle(s.pc) { MiddleStepKeeps(s, c); }
        else if s.pc.Judging? { JudgingKeeps(s, c); }
        else if s.pc.Between? || s.pc.Deciding? { BetweenKeeps(s, c); }
        else { LeavingKeeps(s, c); }
      case Call(_, _) => LogMore(s.log, Busy);
      case Store => LogMore(s.log, Stored);
      case Poke => LogMore(s.log, Poked(s.lock.Held? && s.alive == s.lock.pointer));
      case _ =>
    }
  }

  /** Every interleaving keeps the invariant. */
  lemma {:induction false} RunKeeps(actions: seq<Action>)
    ensures Consistent(Run(actions)) && AllExplained(Run(actions).log)
  {
    if actions == [] {
      assert START.log == [];
    } else {
      RunKeeps(actions[..|actions| - 1]);
      NextKeeps(Run(actions[..|actions| - 1]), actions[|actions| - 1]);
    }
  }

  // ---- what this means ----

  /** No canceller ever calls a runtime that is gone, whatever it read and however it is delayed. */
  lemma PointerIsAlive(actions: seq<Action>)
    ensures var s := Run(actions);
            && (s.active.Some? ==> s.active == s.alive)
            && (s.lock.Held? && s.lock.pointer.Some? ==> s.lock.pointer == s.alive)
    ensures forall i :: 0 <= i < |Run(actions).log| && Run(actions).log[i].Poked? ==> Run(actions).log[i].alive
  {
    var log := Run(actions).log;
    RunKeeps(actions);
    forall i | 0 <= i < |log| && log[i].Poked? ensures log[i].alive {
      assert Explained(log[..i], log[i]);
    }
  }

  // ---- calls that are turned away ----

  /** The actions without the calls that find a run going on. */
  function Heard(actions: seq<Action>): seq<Action> {
    if actions == [] then []
    else
      var front, last := actions[..|actions| - 1], actions[|actions| - 1];
      if last.Call? && Run(front).executing then Heard(front) else Heard(front) + [last]
  }

  /** The log without a trace of such calls. */
  function Quiet(log: seq<Event>): seq<Event> {
    if log == [] then []
    else Quiet(log[..|log| - 1]) + if log[|log| - 1].Busy? then [] else [log[|log| - 1]]
  }

  lemma QuietMore(log: seq<Event>, e: Event)
    ensures Quiet(log + [e]) == Quiet(log) + if e.Busy? then [] else [e]
  {
    assert (log + [e])[..|log|] == log;
  }

  /** The entries of one worker step. */
  function StepEvents(s: State): seq<Event> {
    match s.pc
    case Entered(_) => [Reset]
    case Head => [Looked(AtHead, s.index, s.cancel)]
    case Gating => [Looked(BeforeRun, s.index, s.cancel)]
    case Launching => [Began(s.index)]
    case Judging(_) => [Looked(AfterRun, s.index, s.cancel)]
    case Deciding(_) => [Looked(AfterDecision, s.index, s.cancel)]
    case Exiting(result) => [Ended(s.solo, result)]
    case _ => []
  }

  predicate IgnoresLog(s: State, c: Choice, log: seq<Event>) {
    && Step(s.(log := log), c) == Step(s, c).(log := log + StepEvents(s))
    && Step(s, c).log == s.log + StepEvents(s)
  }

  predicate OnPointer(pc: Pc) {
    pc.Publishing? || pc.Retracting? || pc.Abandoning? || pc.Unwinding?
  }

  lemma PointerStepIgnoresLog(s: State, c: Choice, log: seq<Event>)
    requires OnPointer(s.pc)
    ensures IgnoresLog(s, c, log)
  {
    assert log + [] == log && s.log + [] == s.log;
  }

  lemma CallbackStepIgnoresLog(s: State, c: Choice, log: seq<Event>)
    requires s.pc.Starting? || s.pc.Running? || s.pc.Reporting? || s.pc.Building?
    ensures IgnoresLog(s, c, log)
  {
    assert log + [] == log && s.log + [] == s.log;
  }

  lemma QuietStepIgnoresLog(s: State, c: Choice, log: seq<Event>)
    requires s.pc.Idle? || s.pc.Checking? || s.pc.Between?
    ensures IgnoresLog(s, c, log)
  {
    assert log + [] == log && s.log + [] == s.log;
  }

  lemma LookIgnoresLog(s: State, c: Choice, log: seq<Event>)
    requires s.pc.Head? || s.pc.Gating? || s.pc.Judging? || s.pc.Deciding?
    ensures IgnoresLog(s, c, log)
  {
  }

  lemma OtherStepIgnoresLog(s: State, c: Choice, log: seq<Event>)
    requires s.pc.Entered? || s.pc.Launching? || s.pc.Exiting?
    ensures IgnoresLog(s, c, log)
  {
  }

  lemma StepIgnoresLog(s: State, c: Choice, log: seq<Event>)
    ensures IgnoresLog(s, c, log)
  {
    hide IgnoresLog;
    match s.pc {
      case Head | Gating | Judging(_) | Deciding(_) => LookIgnoresLog(s, c, log);
      case Entered(_) | Launching | Exiting(_) => OtherStepIgnoresLog(s, c, log);
      case Starting | Running | Reporting(_) | Building => CallbackStepIgnoresLog(s, c, log);
      case Idle | Checking(_) | Between => QuietStepIgnoresLog(s, c, log);
      case _ => PointerStepIgnoresLog(s, c, log);
    }
  }

  lemma QuietStep(s: State)
    ensures Quiet(s.log + StepEvents(s)) == Quiet(s.log) + StepEvents(s)
  {
    hide Quiet;
    if StepEvents(s) == [] {
      assert s.log + [] == s.log;
    } else {
      QuietMore(s.log, StepEvents(s)[0]);
    }
  }

  /** What an action adds to the log, and the rest of what it does, do not depend on the log. */
  lemma NextIgnoresLog(s: State, a: Action)
    requires !(a.Call? && s.executing)
    ensures Next(s.(log := Quiet(s.log)), a) == Next(s, a).(log := Quiet(Next(s, a).log))
  {
    hide Quiet, Step;
    match a {
      case Work(c) =>
        StepIgnoresLog(s, c, Quiet(s.log));
        assert s.(log := s.log) == s;
        QuietStep(s);
      case Store => QuietMore(s.log, Stored);
      case Poke => QuietMore(s.log, Poked(s.alive == if s.lock.Held? then s.lock.pointer else None));
      case _ =>
    }
  }

  lemma QuietOfNothing()
    ensures Quiet([]) == []
  {
  }

  lemma TurnedAway(s: State, a: Action)
    requires a.Call? && s.executing
    ensures Next(s, a) == Note(s, Busy)
  {
  }

  /**
   * Callers that are turned away leave no trace in a run: without them all fields are the same, in
   * particular a pending cancel, and the log differs by their own entries only.
   */
  lemma {:induction false} BusyCallsLeaveNoTrace(actions: seq<Action>)
    ensures Run(Heard(actions)) == Run(actions).(log := Quiet(Run(actions).log))
  {
    hide Quiet, Next;
    if actions == [] {
      assert Quiet([]) == [] by { QuietOfNothing(); }
    } else {
      var front, last := actions[..|actions| - 1], actions[|actions| - 1];
      BusyCallsLeaveNoTrace(front);
      if last.Call? && Run(front).executing {
        TurnedAway(Run(front), last);
        QuietMore(Run(front).log, Busy);
      } else {
        assert (Heard(front) + [last])[..|Heard(front)|] == Heard(front);
        NextIgnoresLog(Run(front), last);
      }
    }
  }

  // ---- cancelling ----

  lemma {:induction false} RaisedStays(log: seq<Event>, i: nat, j: nat)
    requires i <= j <= |log| && Raised(log[..i])
    requires forall k :: i <= k < j ==> log[k] != Reset
    ensures Raised(log[..j])
    decreases j
  {
    if i == j {
    } else {
      assert log[..j][..j - 1] == log[..j - 1];
      RaisedStays(log, i, j - 1);
    }
  }

  lemma {:induction false} LastOfWorkerIsThere(log: seq<Event>, i: nat, j: nat) returns (k: nat)
    requires i < j <= |log| && ByWorker(log[i])
    ensures i <= k < j && LastOfWorker(log[..j]) == Some(log[k])
    decreases j
  {
    assert log[..j][..j - 1] == log[..j - 1];
    if ByWorker(log[j - 1]) {
      k := j - 1;
    } else {
      k := LastOfWorkerIsThere(log, i, j - 1);
    }
  }

  /**
   * Once a cancel is stored in a run, at most one more runtime call begins: of two calls of the
   * same run, the first one began with the flag down.
   */
  lemma AtMostOneRunAfterCancel(actions: seq<Action>, i: nat, j: nat)
    requires var log := Run(actions).log; i < j < |log| && log[i].Began? && log[j].Began?
    requires forall k :: i <= k < j ==> Run(actions).log[k] != Reset
    ensures !Raised(Run(actions).log[..i])
  {
    var log := Run(actions).log;
    RunKeeps(actions);
    assert Explained(log[..j], log[j]);
    var k := LastOfWorkerIsThere(log, i, j);
    assert Explained(log[..k], log[k]);
    if Raised(log[..i]) {
      RaisedStays(log, i, k);
    }
  }

  lemma {:induction false} LastOfWorkerExists(log: seq<Event>, j: nat) returns (k: nat)
    requires j <= |log| && LastOfWorker(log[..j]).Some?
    ensures k < j && LastOfWorker(log[..j]) == Some(log[k])
    ensures forall m :: k < m < j ==> !ByWorker(log[m])
    decreases j
  {
    assert log[..j][..j - 1] == log[..j - 1];
    if ByWorker(log[j - 1]) {
      k := j - 1;
    } else {
      k := LastOfWorkerExists(log, j - 1);
    }
  }

  /** The flag is up exactly when a cancel was stored and no run has reset the flag since. */
  lemma {:induction false} RaisedExactly(log: seq<Event>, n: nat)
    requires n <= |log|
    ensures Raised(log[..n]) <==>
            exists c :: 0 <= c < n && log[c] == Stored && forall r :: c < r < n ==> log[r] != Reset
    decreases n
  {
    if n == 0 {
    } else {
      LogMore(log[..n - 1], log[n - 1]);
      assert log[..n] == log[..n - 1] + [log[n - 1]];
      RaisedExactly(log, n - 1);
    }
  }

  /** Which cancels a run sees: at each look exactly those stored after the last reset. */
  lemma LooksSeeStores(actions: seq<Action>, k: nat)
    requires k < |Run(actions).log| && Run(actions).log[k].Looked?
    ensures var log := Run(actions).log;
            log[k].seen <==> exists c :: 0 <= c < k && log[c] == Stored && forall r :: c < r < k ==> log[r] != Reset
  {
    hide Raised, LastOfWorker, Run;
    var log := Run(actions).log;
    RunKeeps(actions);
    assert Explained(log[..k], log[k]);
    RaisedExactly(log, k);
  }

  /**
   * A run that ends completed read the flag down after its last stage; a cancel that was stored
   * in the run before that read rules completion out.
   */
  lemma CompletedWasNotCancelled(actions: seq<Action>, i: nat, solo: bool) returns (k: nat)
    requires i < |Run(actions).log| && Run(actions).log[i] == Ended(solo, Done)
    ensures var log := Run(actions).log;
            && k < i && log[k] == Looked(AfterRun, LastStage(solo), false) && !Raised(log[..k])
            && (forall m :: k < m < i ==> !ByWorker(log[m]))
            && forall c :: 0 <= c < k && log[c] == Stored ==> exists r :: c < r < k && log[r] == Reset
  {
    hide Raised, LastOfWorker, Run;
    var log := Run(actions).log;
    RunKeeps(actions);
    assert Explained(log[..i], log[i]);
    k := LastOfWorkerExists(log, i);
    assert Explained(log[..k], log[k]);
    LooksSeeStores(actions, k);
  }

  lemma RunMore(actions: seq<Action>, a: Action)
    ensures Run(actions + [a]) == Next(Run(actions), a)
  {
    assert (actions + [a])[..|actions|] == actions;
  }

  /**
   * Whenever a run has taken the busy flag and not yet reset the cancel flag, a cancel stored now
   * leaves the flag down after the reset; of the canceller only its second half is left.
   */
  lemma StoreBeforeResetIsCleared(actions: seq<Action>, c: Choice)
    requires Run(actions).pc.Entered?
    ensures var s := Run(actions);
            var t := Run(actions + [Store] + [Work(c)]);
            t == s.(cancel := false, cancellers := s.cancellers + 1, pc := Checking(s.pc.ready),
                    log := s.log + [Stored] + [Reset])
  {
    RunMore(actions, Store);
    RunMore(actions + [Store], Work(c));
  }

  /** No canceller in the list calls a runtime or gives the mutex back. */
  predicate LeavesMutex(actions: seq<Action>) {
    forall a | a in actions :: !a.Poke? && !a.Release?
  }

  lemma NextKeepsMutex(s: State, a: Action)
    requires s.lock.Held? && !a.Release?
    ensures Next(s, a).lock == s.lock
  {
  }

  lemma {:induction false} MutexIsKept(actions: seq<Action>, others: seq<Action>)
    requires Run(actions).lock.Held? && LeavesMutex(others)
    ensures Run(actions + others).lock == Run(actions).lock
    decreases |others|
  {
    if others == [] {
      assert actions + others == actions;
    } else {
      var front, last := others[..|others| - 1], others[|others| - 1];
      hide Run, Next;
      assert actions + others == (actions + front) + [last];
      MutexIsKept(actions, front);
      NextKeepsMutex(Run(actions + front), last);
      RunMore(actions + front, last);
    }
  }

  /**
   * Whatever happened to its flag, the second half of a cancel reaches a runtime exactly when it
   * takes the mutex while one is published, however late it then makes the call.
   */
  lemma SecondHalfReachesARuntime(actions: seq<Action>, others: seq<Action>)
    requires Run(actions).cancellers > 0 && Run(actions).lock.Free? && LeavesMutex(others)
    ensures var before := Run(actions + [Acquire] + others).log;
            Run(actions + [Acquire] + others + [Poke]).log ==
            before + if PointerSet(Run(actions).pc) then [Poked(true)] else []
  {
    hide Run;
    RunKeeps(actions);
    RunMore(actions, Acquire);
    MutexIsKept(actions + [Acquire], others);
    PointerIsAlive(actions + [Acquire] + others);
    RunMore(actions + [Acquire] + others, Poke);
  }

  lemma RunOfNothing()
    ensures Run([]) == START
  {
  }

  /** So a cancel whose flag is cleared may still reach the runtime of the first stage. */
  lemma ClearedCancelCanReachARuntime(c: Choice)
    requires !c.throws && c.present
    ensures var entered := [Call(true, false)];
            var started := entered + [Store] + [Work(c)] + [Work(c)] + [Work(c)] + [Work(c)] + [Work(c)];
            Run(started + [Acquire] + [] + [Poke]).log == [Stored, Reset, Looked(AtHead, 0, false), Poked(true)]
  {
    hide Run;
    var w, entered := Work(c), [Call(true, false)];
    RunOfNothing();
    assert [] + entered == entered;
    RunMore([], Call(true, false));
    StoreBeforeResetIsCleared(entered, c);
    var cleared := entered + [Store] + [w];
    RunMore(cleared, w);
    RunMore(cleared + [w], w);
    RunMore(cleared + [w] + [w], w);
    RunMore(cleared + [w] + [w] + [w], w);
    var started := cleared + [w] + [w] + [w] + [w];
    SecondHalfReachesARuntime(started, []);
    assert started + [Acquire] + [] == started + [Acquire];
    RunMore(started, Acquire);
  }
}
