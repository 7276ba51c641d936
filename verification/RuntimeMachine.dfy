/**
 * One agent runtime under concurrent cancellation. A canceller reaches the flag of a run only while
 * the run has its session attached; attaching, detaching and cancelling exclude one another by a mutex.
 */
module RuntimeMachine {
  import opened Options
  import Session = AgentLog

  datatype Phase = Outside | Checking | Active | Finished

  datatype Event =
    | Entered                    // a run takes the busy flag
    | Attached                   // its session and its fresh cancel flag are published
    | Did(e: Session.Event)      // the session does something
    | Detached
    | Left(cancelled: bool)      // the run ends; whether its flag was up
    | Poked(hit: bool)           // a canceller calls; whether a session was attached

  /** `flag` is the cancel flag of the run, `session` what its session has done. */
  datatype State = State(phase: Phase, flag: bool, session: seq<Session.Event>, log: seq<Event>)

  const START := State(Outside, false, [], [])

  datatype Action = Enter | Refuse | Attach | Step(e: Session.Event) | Detach | Leave | Poke

  function Note(s: State, e: Event): State {
    s.(log := s.log + [e])
  }

  /** A session starts a tool or model call only right after it has seen the flag down. */
  predicate MayDo(session: seq<Session.Event>, e: Session.Event) {
    Session.IsCall(e) ==> session != [] && session[|session| - 1] == Session.CancelRead(false)
  }

  /** What the session does; a look at the flag sees the flag. */
  function Seen(s: State, e: Session.Event): Session.Event {
    if e.CancelRead? then Session.CancelRead(s.flag) else e
  }

  function Next(s: State, a: Action): State {
    match a
    case Enter => if s.phase.Outside? then Note(s, Entered).(phase := Checking, flag := false, session := []) else s
    case Refuse => if s.phase.Checking? then Note(s, Left(false)).(phase := Outside) else s
    case Attach => if s.phase.Checking? then Note(s, Attached).(phase := Active) else s
    case Step(e) =>
      if s.phase.Active? && MayDo(s.session, e)
      then Note(s, Did(Seen(s, e))).(session := s.session + [Seen(s, e)]) else s
    case Detach => if s.phase.Active? then Note(s, Detached).(phase := Finished) else s
    case Leave => if s.phase.Finished? then Note(s, Left(s.flag)).(phase := Outside) else s
    case Poke => Note(s, Poked(s.phase.Active?)).(flag := s.flag || s.phase.Active?)
  }

  function Run(actions: seq<Action>): State {
    if actions == [] then START else Next(Run(actions[..|actions| - 1]), actions[|actions| - 1])
  }

  lemma RunMore(actions: seq<Action>, a: Action)
    ensures Run(actions + [a]) == Next(Run(actions), a)
  {
    assert (actions + [a])[..|actions|] == actions;
  }

  // ---- reading a log ----

  /** A session is attached. */
  predicate IsActive(log: seq<Event>) {
    log != [] && match log[|log| - 1]
                 case Attached => true
                 case Entered | Detached | Left(_) => false
                 case _ => IsActive(log[..|log| - 1])
  }

  /** A canceller has reached the session of the current run. */
  predicate Hit(log: seq<Event>) {
    log != [] && match log[|log| - 1]
                 case Entered => false
                 case Poked(hit) => hit || Hit(log[..|log| - 1])
                 case _ => Hit(log[..|log| - 1])
  }

  /** The last thing the session of the current run did. */
  function LastDone(log: seq<Event>): Option<Session.Event> {
    if log == [] then None
    else match log[|log| - 1]
      case Entered => None
      case Did(e) => Some(e)
      case _ => LastDone(log[..|log| - 1])
  }

  /** What each event says about the log before it. */
  predicate Explained(log: seq<Event>, e: Event) {
    match e
    case Poked(hit) => hit == IsActive(log)
    case Left(cancelled) => cancelled == Hit(log)
    case Did(done) =>
      && IsActive(log)
      && (done.CancelRead? ==> done.seen == Hit(log))
      && (Session.IsCall(done) ==> LastDone(log) == Some(Session.CancelRead(false)))
    case _ => true
  }

  ghost predicate AllExplained(log: seq<Event>) {
    forall i :: 0 <= i < |log| ==> Explained(log[..i], log[i])
  }

  predicate Consistent(s: State) {
    && s.phase.Active? == IsActive(s.log)
    && s.flag == Hit(s.log)
    && (s.phase.Checking? ==> !s.flag)
    && LastDone(s.log) == (if s.session == [] then None else Some(s.session[|s.session| - 1]))
  }

  lemma LogMore(log: seq<Event>, e: Event)
    ensures IsActive(log + [e]) == (if e.Attached? then true
                                    else if e.Entered? || e.Detached? || e.Left? then false else IsActive(log))
    ensures Hit(log + [e]) == (if e.Entered? then false else (e.Poked? && e.hit) || Hit(log))
    ensures LastDone(log + [e]) == if e.Entered? then None else if e.Did? then Some(e.e) else LastDone(log)
    ensures AllExplained(log) && Explained(log, e) ==> AllExplained(log + [e])
  {
    var more := log + [e];
    assert more[..|log|] == log;
    if AllExplained(log) && Explained(log, e) {
      forall i | 0 <= i < |more| ensures Explained(more[..i], more[i]) {
        assert more[..i] == log[..i];
        assert i == |log| ==> log[..i] == log;
      }
    }
  }

  lemma NextKeeps(s: State, a: Action)
    requires Consistent(s) && AllExplained(s.log)
    ensures Consistent(Next(s, a)) && AllExplained(Next(s, a).log)
  {
    hide IsActive, Hit, LastDone, AllExplained;
    var t := Next(s, a);
    if t.log != s.log {
      LogMore(s.log, t.log[|t.log| - 1]);
    }
  }

  /** Every interleaving keeps the invariant. */
  lemma {:induction false} RunKeeps(actions: seq<Action>)
    ensures Consistent(Run(actions)) && AllExplained(Run(actions).log)
  {
    if actions == [] {
    } else {
      RunKeeps(actions[..|actions| - 1]);
      NextKeeps(Run(actions[..|actions| - 1]), actions[|actions| - 1]);
    }
  }

  // ---- what a cancel does ----

  lemma {:induction false} HitExactly(log: seq<Event>, n: nat)
    requires n <= |log|
    ensures Hit(log[..n]) <==>
            exists p :: 0 <= p < n && log[p] == Poked(true) && forall r :: p < r < n ==> !log[r].Entered?
    decreases n
  {
    if n == 0 {
    } else {
      LogMore(log[..n - 1], log[n - 1]);
      assert log[..n] == log[..n - 1] + [log[n - 1]];
      HitExactly(log, n - 1);
    }
  }

  lemma {:induction false} ActiveExactly(log: seq<Event>, n: nat)
    requires n <= |log|
    ensures IsActive(log[..n]) <==>
            exists a :: 0 <= a < n && log[a].Attached?
              && forall r :: a < r < n ==> !(log[r].Entered? || log[r].Detached? || log[r].Left?)
    decreases n
  {
    if n == 0 {
    } else {
      LogMore(log[..n - 1], log[n - 1]);
      assert log[..n] == log[..n - 1] + [log[n - 1]];
      ActiveExactly(log, n - 1);
    }
  }

  /**
   * A cancel makes a run cancelled exactly when it falls between the attaching and the detaching of
   * the session of that run.
   */
  lemma CancelledExactly(actions: seq<Action>, k: nat)
    requires k < |Run(actions).log| && Run(actions).log[k].Left?
    ensures var log := Run(actions).log;
            log[k].cancelled <==>
            exists p :: 0 <= p < k && log[p] == Poked(true) && forall r :: p < r < k ==> !log[r].Entered?
    ensures var log := Run(actions).log;
            forall p :: 0 <= p < |log| && log[p].Poked? ==>
              (log[p].hit <==>
               exists a :: 0 <= a < p && log[a].Attached?
                 && forall r :: a < r < p ==> !(log[r].Entered? || log[r].Detached? || log[r].Left?))
  {
    hide Run, Hit, IsActive, LastDone;
    var log := Run(actions).log;
    RunKeeps(actions);
    assert Explained(log[..k], log[k]);
    HitExactly(log, k);
    forall p | 0 <= p < |log| && log[p].Poked?
      ensures log[p].hit <==>
              exists a :: 0 <= a < p && log[a].Attached?
                && forall r :: a < r < p ==> !(log[r].Entered? || log[r].Detached? || log[r].Left?)
    {
      assert Explained(log[..p], log[p]);
      ActiveExactly(log, p);
    }
  }

  lemma {:induction false} HitStays(log: seq<Event>, i: nat, j: nat)
    requires i <= j <= |log| && Hit(log[..i]) && forall r :: i <= r < j ==> !log[r].Entered?
    ensures Hit(log[..j])
    decreases j
  {
    if i == j {
    } else {
      LogMore(log[..j - 1], log[j - 1]);
      assert log[..j] == log[..j - 1] + [log[j - 1]];
      HitStays(log, i, j - 1);
    }
  }

  /** Where the last look at the flag stands that let a call start. */
  lemma {:induction false} LookBefore(log: seq<Event>, i: nat, j: nat, done: Session.Event) returns (k: nat)
    requires i < j <= |log| && log[i].Did? && LastDone(log[..j]) == Some(done)
    requires forall r :: i <= r < j ==> !log[r].Entered?
    ensures i <= k < j && log[k] == Did(done)
    decreases j
  {
    LogMore(log[..j - 1], log[j - 1]);
    assert log[..j] == log[..j - 1] + [log[j - 1]];
    if log[j - 1].Did? {
      k := j - 1;
    } else {
      k := LookBefore(log, i, j - 1, done);
    }
  }

  /** Once a cancel has reached the session of a run, at most one more tool or model call starts in it. */
  lemma AtMostOneCallAfterHit(actions: seq<Action>, i: nat, j: nat)
    requires var log := Run(actions).log;
             && i < j < |log| && log[i].Did? && (log[i].e.ModelCall? || log[i].e.ToolEffect?)
             && log[j].Did? && (log[j].e.ModelCall? || log[j].e.ToolEffect?)
             && forall r :: i <= r < j ==> !log[r].Entered?
    ensures !Hit(Run(actions).log[..i])
  {
    hide Run, Hit, IsActive, LastDone;
    var log := Run(actions).log;
    RunKeeps(actions);
    assert Explained(log[..j], log[j]);
    var k := LookBefore(log, i, j, Session.CancelRead(false));
    assert Explained(log[..k], log[k]);
    if Hit(log[..i]) {
      HitStays(log, i, k);
    }
  }

  // ---- cancels that miss ----

  /** The actions without the cancels that find no session. */
  function Felt(actions: seq<Action>): seq<Action> {
    if actions == [] then []
    else
      var front, last := actions[..|actions| - 1], actions[|actions| - 1];
      if last.Poke? && !Run(front).phase.Active? then Felt(front) else Felt(front) + [last]
  }

  function WithoutMisses(log: seq<Event>): seq<Event> {
    if log == [] then []
    else WithoutMisses(log[..|log| - 1]) + if log[|log| - 1] == Poked(false) then [] else [log[|log| - 1]]
  }

  lemma WithoutMissesMore(log: seq<Event>, e: Event)
    ensures WithoutMisses(log + [e]) == WithoutMisses(log) + if e == Poked(false) then [] else [e]
  {
    assert (log + [e])[..|log|] == log;
  }

  lemma NextIgnoresLog(s: State, a: Action)
    requires !(a.Poke? && !s.phase.Active?)
    ensures Next(s.(log := WithoutMisses(s.log)), a) == Next(s, a).(log := WithoutMisses(Next(s, a).log))
  {
    hide WithoutMisses;
    var t := Next(s, a);
    if t.log != s.log {
      WithoutMissesMore(s.log, t.log[|t.log| - 1]);
    }
  }

  lemma NothingMissed()
    ensures WithoutMisses([]) == []
  {
  }

  lemma MissChangesNothing(s: State)
    requires !s.phase.Active?
    ensures Next(s, Poke) == Note(s, Poked(false))
  {
  }

  /**
   * A cancel that comes before the session of a run is attached, or after it is detached, leaves no
   * trace in the runtime: the run proceeds as if it had never been made.
   */
  lemma {:induction false} MissedCancelsLeaveNoTrace(actions: seq<Action>)
    ensures Run(Felt(actions)) == Run(actions).(log := WithoutMisses(Run(actions).log))
  {
    hide WithoutMisses, Next;
    if actions == [] {
      NothingMissed();
    } else {
      var front, last := actions[..|actions| - 1], actions[|actions| - 1];
      MissedCancelsLeaveNoTrace(front);
      if last.Poke? && !Run(front).phase.Active? {
        MissChangesNothing(Run(front));
        WithoutMissesMore(Run(front).log, Poked(false));
      } else {
        RunMore(Felt(front), last);
        NextIgnoresLog(Run(front), last);
      }
    }
  }

  // ---- sessions are runs of this machine ----

  lemma RunOfNothing()
    ensures Run([]) == START
  {
  }

  lemma FlagIsSeen(env: Session.Env, session: seq<Session.Event>, flag: bool)
    requires session != [] && Session.Monotone(env)
    requires var front := session[..|session| - 1];
             flag ==> exists i :: 0 <= i < |front| && env.cancelled(front[..i])
    ensures flag ==> env.cancelled(session[..|session| - 1])
    ensures flag ==> exists i :: 0 <= i < |session| && env.cancelled(session[..i])
  {
    var front := session[..|session| - 1];
    if flag {
      var i :| 0 <= i < |front| && env.cancelled(front[..i]);
      assert front[..i] <= front;
    }
  }

  lemma SoundPrefix(env: Session.Env, tools: Session.Registry, session: seq<Session.Event>)
    requires session != [] && Session.Sound(env, tools, session)
    ensures Session.Sound(env, tools, session[..|session| - 1])
    ensures Session.Allowed(env, tools, session[..|session| - 1], session[|session| - 1])
  {
    var front := session[..|session| - 1];
    forall i | 0 <= i < |front| ensures Session.Allowed(env, tools, front[..i], front[i]) {
      assert front[..i] == session[..i];
    }
  }

  /** Everything a session can do with an arbitrary, but monotone, cancel flag happens in some run. */
  lemma {:induction false} SessionsAreRuns(env: Session.Env, tools: Session.Registry, session: seq<Session.Event>)
    returns (actions: seq<Action>)
    requires Session.Sound(env, tools, session) && Session.Monotone(env)
    ensures Run(actions).phase.Active? && Run(actions).session == session
    ensures Run(actions).flag ==> exists i :: 0 <= i < |session| && env.cancelled(session[..i])
    decreases |session|
  {
    hide Run, Session.Sound, Session.Monotone;
    if session == [] {
      actions := [] + [Enter] + [Attach];
      RunOfNothing();
      RunMore([], Enter);
      RunMore([] + [Enter], Attach);
    } else {
      var front, e := session[..|session| - 1], session[|session| - 1];
      SoundPrefix(env, tools, session);
      var before := SessionsAreRuns(env, tools, front);
      FlagIsSeen(env, session, Run(before).flag);
      assert session == front + [e];
      if e == Session.CancelRead(true) && !Run(before).flag {
        actions := before + [Poke] + [Step(e)];
        RunMore(before, Poke);
        RunMore(before + [Poke], Step(e));
        assert env.cancelled(session[..|session| - 1]);
      } else {
        actions := before + [Step(e)];
        RunMore(before, Step(e));
      }
    }
  }
}
