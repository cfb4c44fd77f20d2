/** What every run of the client keeps about tunnel sessions, suspension and waiting callers. */
module SupervisorSessions {
  import opened Lifecycle
  import opened Supervisor

  // ------------------------------------------- which session is current

  /** The session that is current while the supervisor stands at `pc`. */
  function Current(pc: Pc): Option<nat> {
    match pc
    case Starting(x) => Some(x)
    case Publishing(x) => Some(x)
    case ClearUnpublished(x) => Some(x)
    case AnnounceUp(x) => Some(x)
    case WakeUp(x) => Some(x)
    case TestSuspendedRun(x) => Some(x)
    case FailOwn(x) => Some(x)
    case WaitingDone(x) => Some(x)
    case CloseEnded(x, _) => Some(x)
    case ClearEnded(x, _) => Some(x)
    case _ => None
  }

  /** The session that is published while the supervisor stands at `pc`. */
  function Published(pc: Pc): Option<nat> {
    match pc
    case AnnounceUp(x) => Some(x)
    case WakeUp(x) => Some(x)
    case TestSuspendedRun(x) => Some(x)
    case FailOwn(x) => Some(x)
    case WaitingDone(x) => Some(x)
    case CloseEnded(x, _) => Some(x)
    case ClearEnded(x, _) => Some(x)
    case _ => None
  }

  /** The session the supervisor has not closed yet at `pc`. */
  function Open(pc: Pc): Option<nat> {
    if pc.ClearEnded? then None else PcSession(pc)
  }

  ghost predicate SessionsClosed(sessions: seq<Session>, pc: Pc) {
    forall i :: 0 <= i < |sessions| ==> sessions[i].closed || Open(pc) == Some(i)
  }

  /** The lifecycle fields agree with where the supervisor stands. */
  ghost predicate ClientShape(c: Client, pc: Pc) {
    WellFormed(c) && c.currentSession == Current(pc) && c.publishedSession == Published(pc)
  }

  /** The supervisor's session exists, and every other one has been closed. */
  ghost predicate SessionShape(sessions: seq<Session>, pc: Pc) {
    && (PcSession(pc).Some? ==> PcSession(pc).value < |sessions|)
    && SessionsClosed(sessions, pc)
  }

  ghost predicate Shape(s: State) {
    ClientShape(s.client, s.sup.pc) && SessionShape(s.sessions, s.sup.pc)
  }

  /** Sessions fail, close and start; they are never reopened or forgotten. */
  ghost predicate SessionsGrow(xs: seq<Session>, ys: seq<Session>) {
    |xs| <= |ys| && forall i :: 0 <= i < |xs| ==>
      (xs[i].closed ==> ys[i].closed) && (xs[i].failed ==> ys[i].failed && ys[i].error == xs[i].error)
  }

  /** The steps at either end of the loop touch neither sessions nor the current session. */
  ghost predicate Sessionless(s: State, s': State) {
    || s' == s
    || (s'.client == s.client && s'.sessions == s.sessions && PcSession(s.sup.pc).None? && PcSession(s'.sup.pc).None?)
  }

  lemma IdleSessionless(s: State, k: Choice)
    requires !s.sup.pc.Connecting?
    ensures Sessionless(s, SuperviseIdle(s, k))
  {}

  lemma EndSessionless(timeout: nat, s: State, k: Choice)
    requires !s.sup.pc.SetTerminal? && !s.sup.pc.CloseState?
    ensures Sessionless(s, SuperviseEnd(timeout, s, k))
  {
    match s.sup.pc
    case AfterRun(_, _) =>
    case AfterRunSuspended(_, _) =>
    case BackingOff =>
    case Timing(_) =>
    case CancelSelf =>
    case ReleaseWeb =>
    case _ =>
  }

  lemma EndKeepsClient(timeout: nat, s: State, k: Choice)
    requires ClientShape(s.client, s.sup.pc)
    ensures ClientShape(SuperviseEnd(timeout, s, k).client, SuperviseEnd(timeout, s, k).sup.pc)
  {
    if s.sup.pc.SetTerminal? {
      TerminalSection(s.client, s.sup.pc.err);
    } else if s.sup.pc.CloseState? {
      CloseSections(s.client);
    } else {
      EndSessionless(timeout, s, k);
    }
  }

  lemma IdleKeepsClient(s: State, k: Choice)
    requires ClientShape(s.client, s.sup.pc)
    ensures ClientShape(SuperviseIdle(s, k).client, SuperviseIdle(s, k).sup.pc)
  {
    if !s.sup.pc.Connecting? {
      IdleSessionless(s, k);
    }
  }

  lemma SetupKeepsClient(s: State, k: Choice)
    requires ClientShape(s.client, s.sup.pc)
    ensures ClientShape(SuperviseSetup(s, k).client, SuperviseSetup(s, k).sup.pc)
  {
    match s.sup.pc
    case SetCurrent(x) => SetCurrentSection(s.client, s.done, x);
    case CloseRefused(_) =>
    case Starting(_) =>
    case Publishing(x) => PublishSection(s.client, s.done, x, x < |s.sessions| && s.sessions[x].ready);
    case ClearUnpublished(x) => ClearSection(s.client, x);
    case CloseUnpublished(_) =>
    case _ => assert SuperviseSetup(s, k) == s;
  }

  lemma RunKeepsClient(s: State, k: Choice)
    requires ClientShape(s.client, s.sup.pc)
    ensures ClientShape(SuperviseRun(s, k).client, SuperviseRun(s, k).sup.pc)
  {
    match s.sup.pc
    case AnnounceUp(_) =>
    case WakeUp(_) =>
    case TestSuspendedRun(_) =>
    case FailOwn(_) =>
    case WaitingDone(_) =>
    case CloseEnded(_, _) =>
    case ClearEnded(x, _) => ClearSection(s.client, x);
    case AnnounceDown(_) =>
    case WakeDown(_) =>
    case _ => assert SuperviseRun(s, k) == s;
  }

  lemma IdleKeepsSessions(s: State, k: Choice)
    requires SessionShape(s.sessions, s.sup.pc)
    ensures SessionShape(SuperviseIdle(s, k).sessions, SuperviseIdle(s, k).sup.pc)
  {
    if !s.sup.pc.Connecting? {
      IdleSessionless(s, k);
    }
  }

  lemma SetupKeepsSessions(s: State, k: Choice)
    requires SessionShape(s.sessions, s.sup.pc)
    ensures SessionShape(SuperviseSetup(s, k).sessions, SuperviseSetup(s, k).sup.pc)
  {
    match s.sup.pc
    case SetCurrent(_) =>
    case CloseRefused(_) =>
    case Starting(_) =>
    case Publishing(_) =>
    case ClearUnpublished(_) =>
    case CloseUnpublished(_) =>
    case _ => assert SuperviseSetup(s, k) == s;
  }

  lemma RunKeepsSessions(s: State, k: Choice)
    requires SessionShape(s.sessions, s.sup.pc)
    ensures SessionShape(SuperviseRun(s, k).sessions, SuperviseRun(s, k).sup.pc)
  {
    match s.sup.pc
    case AnnounceUp(_) =>
    case WakeUp(_) =>
    case TestSuspendedRun(_) =>
    case FailOwn(_) =>
    case WaitingDone(_) =>
    case CloseEnded(_, _) =>
    case ClearEnded(_, _) =>
    case AnnounceDown(_) =>
    case WakeDown(_) =>
    case _ => assert SuperviseRun(s, k) == s;
  }

  lemma EndKeepsSessions(timeout: nat, s: State, k: Choice)
    requires SessionShape(s.sessions, s.sup.pc)
    ensures SessionShape(SuperviseEnd(timeout, s, k).sessions, SuperviseEnd(timeout, s, k).sup.pc)
  {
    if !s.sup.pc.SetTerminal? && !s.sup.pc.CloseState? {
      EndSessionless(timeout, s, k);
    }
  }

  lemma PartsKeepShape(timeout: nat, s: State, k: Choice)
    requires Shape(s)
    ensures Shape(SuperviseIdle(s, k)) && Shape(SuperviseSetup(s, k))
    ensures Shape(SuperviseRun(s, k)) && Shape(SuperviseEnd(timeout, s, k))
  {
    IdleKeepsClient(s, k);
    SetupKeepsClient(s, k);
    RunKeepsClient(s, k);
    EndKeepsClient(timeout, s, k);
    IdleKeepsSessions(s, k);
    SetupKeepsSessions(s, k);
    RunKeepsSessions(s, k);
    EndKeepsSessions(timeout, s, k);
  }

  /** Every supervisor step is a step of one of the four parts of its loop. */
  lemma OneOfTheParts(timeout: nat, s: State, k: Choice)
    ensures SuperviseStep(timeout, s, k) in
      {SuperviseIdle(s, k), SuperviseSetup(s, k), SuperviseRun(s, k), SuperviseEnd(timeout, s, k)}
  {}

  lemma SuperviseLeavesCalls(timeout: nat, s: State, k: Choice)
    ensures SuperviseStep(timeout, s, k).calls == s.calls
  {}

  lemma SuperviseKeepsShape(timeout: nat, s: State, k: Choice)
    requires Shape(s)
    ensures Shape(SuperviseStep(timeout, s, k))
  {
    PartsKeepShape(timeout, s, k);
    OneOfTheParts(timeout, s, k);
  }

  // ----------------------------------------------- steps of the others

  /** Sessions fail or close, and none becomes ready or starts. */
  ghost predicate SessionsWane(xs: seq<Session>, ys: seq<Session>) {
    |xs| == |ys| && SessionsGrow(xs, ys) &&
    forall i :: 0 <= i < |xs| ==> (ys[i].ready ==> xs[i].ready) && ys[i].started == xs[i].started
  }

  lemma FailWanes(xs: seq<Session>, x: nat, err: Error)
    ensures SessionsWane(xs, FailAt(xs, x, err))
    ensures x < |xs| ==> FailAt(xs, x, err)[x].failed
  {}

  lemma CloseWanes(xs: seq<Session>, x: nat)
    ensures SessionsWane(xs, CloseAt(xs, x))
  {}

  /** A critical section that leaves the current and the published session alone. */
  ghost predicate Beside(c: Client, c': Client) {
    Section(c, c') && c'.currentSession == c.currentSession && c'.publishedSession == c.publishedSession
  }

  /** What steps of other goroutines leave alone. */
  ghost predicate Outside(s: State, s': State) {
    s'.sup == s.sup && Beside(s.client, s'.client) && SessionsWane(s.sessions, s'.sessions) && (s.done ==> s'.done)
  }

  lemma DispatchOutside(s: State, ok: bool)
    requires WellFormed(s.client)
    ensures Outside(s, DispatchStep(s, ok))
  {
    match s.ev.dispatcher
    case SettingTerminal(_) => TerminalSection(s.client, TERMINAL);
    case Failing(x) =>
      if x.Some? {
        FailWanes(s.sessions, x.value, TERMINAL);
      }
    case _ =>
  }

  lemma CloseOutside(s: State)
    requires WellFormed(s.client)
    ensures Outside(s, CloseStep(s))
  {
    match s.calls.closer
    case CloseSession(x) =>
      if x.Some? {
        CloseWanes(s.sessions, x.value);
      }
    case _ =>
  }

  lemma OutsideStep(timeout: nat, s: State, step: Step)
    requires WellFormed(s.client) && Enabled(s, step) && !step.Supervise?
    ensures Outside(s, Apply(timeout, s, step))
  {
    match step
    case CallSuspend => SuspendSection(s.client);
    case CallResume => ResumeSection(s.client);
    case CallClose => CloseSections(s.client);
    case FailSuspended(i) => FailWanes(s.sessions, s.calls.owed[i], SUSPENDED);
    case FailRestarted(i) => FailWanes(s.sessions, s.calls.restarts[i], NO_ERROR);
    case SessionFails(x, err) => FailWanes(s.sessions, x, err);
    case Dispatch(ok) => DispatchOutside(s, ok);
    case Close => CloseOutside(s);
    case _ =>
  }

  lemma OutsideKeepsShape(s: State, s': State)
    requires Shape(s) && Outside(s, s')
    ensures Shape(s')
  {}

  lemma StepKeepsShape(timeout: nat, s: State, step: Step)
    requires Shape(s) && Enabled(s, step)
    ensures Shape(Apply(timeout, s, step))
  {
    if step.Supervise? {
      SuperviseKeepsShape(timeout, s, step.choice);
    } else {
      OutsideStep(timeout, s, step);
      OutsideKeepsShape(s, Apply(timeout, s, step));
    }
  }

  lemma {:induction false} RunKeepsShape(timeout: nat, states: seq<State>, steps: seq<Step>, i: nat)
    requires IsRun(timeout, states, steps) && i < |states|
    ensures Shape(states[i])
  {
    if i != 0 {
      RunKeepsShape(timeout, states, steps, i - 1);
      StepKeepsShape(timeout, states[i - 1], steps[i - 1]);
    }
  }

  // -------------------------------------------------------- suspension

  /** A supervisor past its suspension check, waiting on a published session of a suspended
      client, waits on a session that has failed or that a Suspend call is about to fail; and a
      channel it waits on for resumption exists. */
  ghost predicate SuspensionHeard(s: State) {
    && (s.sup.pc.WaitingDone? && s.client.suspended ==>
          s.sup.pc.session < |s.sessions| && (s.sessions[s.sup.pc.session].failed || s.sup.pc.session in s.calls.owed))
    && (s.sup.pc.BlockedOnResume? ==> s.sup.pc.channel < |s.client.resumes|)
  }

  lemma RunHears(s: State, k: Choice)
    requires Shape(s) && SuspensionHeard(s)
    ensures SuspensionHeard(SuperviseRun(s, k))
  {
    if s.sup.pc.FailOwn? {
      FailWanes(s.sessions, s.sup.pc.session, SUSPENDED);
    }
  }

  lemma OtherPartsHear(timeout: nat, s: State, k: Choice)
    requires Shape(s) && SuspensionHeard(s)
    ensures SuspensionHeard(SuperviseIdle(s, k)) && SuspensionHeard(SuperviseSetup(s, k))
  {}

  lemma EndHears(timeout: nat, s: State, k: Choice)
    requires Shape(s) && SuspensionHeard(s)
    ensures SuspensionHeard(SuperviseEnd(timeout, s, k))
  {}

  lemma SuperviseHears(timeout: nat, s: State, k: Choice)
    requires Shape(s) && SuspensionHeard(s)
    ensures SuspensionHeard(SuperviseStep(timeout, s, k))
  {
    RunHears(s, k);
    OtherPartsHear(timeout, s, k);
    EndHears(timeout, s, k);
    OneOfTheParts(timeout, s, k);
  }

  lemma InWithout(calls: seq<nat>, i: nat, x: nat)
    requires i < |calls| && x in calls && x != calls[i]
    ensures x in Without(calls, i)
  {
    var k :| 0 <= k < |calls| && calls[k] == x;
    if k < i {
      assert Without(calls, i)[k] == x;
    } else {
      assert Without(calls, i)[k - 1] == x;
    }
  }

  lemma OutsideHears(timeout: nat, s: State, step: Step)
    requires Shape(s) && SuspensionHeard(s) && Enabled(s, step) && !step.Supervise?
    ensures SuspensionHeard(Apply(timeout, s, step))
  {
    OutsideStep(timeout, s, step);
    var s' := Apply(timeout, s, step);
    if s.sup.pc.WaitingDone? && s'.client.suspended {
      var x := s.sup.pc.session;
      match step
      case CallSuspend =>
        if !s.client.suspended {
          assert s'.calls.owed[|s.calls.owed|] == x;
        }
      case FailSuspended(i) =>
        FailWanes(s.sessions, s.calls.owed[i], SUSPENDED);
        if x in s.calls.owed && x != s.calls.owed[i] {
          InWithout(s.calls.owed, i, x);
        }
      case _ =>
    }
  }

  /** In every interleaving, a suspension reaches the session the supervisor waits on. */
  lemma {:induction false} SuspensionAlwaysHeard(timeout: nat, states: seq<State>, steps: seq<Step>, i: nat)
    requires IsRun(timeout, states, steps) && i < |states|
    ensures SuspensionHeard(states[i])
  {
    if i != 0 {
      SuspensionAlwaysHeard(timeout, states, steps, i - 1);
      RunKeepsShape(timeout, states, steps, i - 1);
      if steps[i - 1].Supervise? {
        SuperviseHears(timeout, states[i - 1], steps[i - 1].choice);
      } else {
        OutsideHears(timeout, states[i - 1], steps[i - 1]);
      }
    }
  }

  /** The client is suspended exactly when its latest `resumed` channel is open, so `Resume`
      never closes one twice, and a supervisor blocked on one while the client is resumed is
      free to go. */
  lemma ResumedChannels(timeout: nat, states: seq<State>, steps: seq<Step>, i: nat)
    requires IsRun(timeout, states, steps) && i < |states|
    ensures var c := states[i].client;
            && (c.suspended <==> c.resumes != [] && !c.resumes[|c.resumes| - 1])
            && (states[i].sup.pc.BlockedOnResume? && !c.suspended ==> Unblocked(states[i], Choice(true, false, false)))
  {
    RunKeepsShape(timeout, states, steps, i);
    SuspensionAlwaysHeard(timeout, states, steps, i);
  }
}
