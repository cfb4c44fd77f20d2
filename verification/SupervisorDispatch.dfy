/** What the event dispatcher does when a callback fails and when the client is closed
    (client.go:330-365 and 391-398). */
module SupervisorDispatch {
  import opened Lifecycle
  import opened Supervisor
  import opened SupervisorSessions
  import opened SupervisorReady
  import opened SupervisorEvents
  import opened SupervisorSuspension
  import opened SupervisorCalls
  import opened SupervisorEnds

  // ------------------------------------------------------- delivery that stopped

  ghost predicate Stopped(ev: Events) {
    ev.stopped && ev.queue == []
  }

  lemma SuperviseKeepsStopped(timeout: nat, s: State, k: Choice)
    requires Stopped(s.ev)
    ensures Stopped(SuperviseStep(timeout, s, k).ev)
  {
    IdleSilent(s, k);
    SetupSilent(s, k);
    EndSilent(timeout, s, k);
    RunKeepsStopped(s, k);
    OneOfTheParts(timeout, s, k);
  }

  lemma RunKeepsStopped(s: State, k: Choice)
    requires Stopped(s.ev)
    ensures Stopped(SuperviseRun(s, k).ev)
  {
    match s.sup.pc
    case AnnounceUp(_) =>
    case WakeUp(_) =>
    case AnnounceDown(_) =>
    case WakeDown(_) =>
    case _ => assert SuperviseRun(s, k).ev == s.ev;
  }

  lemma StepKeepsStopped(timeout: nat, s: State, step: Step)
    requires Stopped(s.ev) && Enabled(s, step)
    ensures Stopped(Apply(timeout, s, step).ev) && Apply(timeout, s, step).ev.delivered == s.ev.delivered
  {
    match step
    case Supervise(k) =>
      SuperviseKeepsStopped(timeout, s, k);
      SuperviseLeavesDispatcher(timeout, s, k);
    case Dispatch(_) =>
    case Close =>
    case _ => assert Apply(timeout, s, step).ev == s.ev;
  }

  /** Once delivery has been stopped, by Close or after a callback error, nothing is delivered. */
  lemma {:induction false} StoppedForGood(timeout: nat, states: seq<State>, steps: seq<Step>, i: nat, j: nat)
    requires IsRun(timeout, states, steps) && i <= j < |states| && states[i].ev.stopped
    ensures Stopped(states[j].ev) && states[j].ev.delivered == states[i].ev.delivered
    decreases j
  {
    if i < j {
      StoppedForGood(timeout, states, steps, i, j - 1);
      StepKeepsStopped(timeout, states[j - 1], steps[j - 1]);
    } else {
      DeliveredIsPrefix(timeout, states, steps, i);
    }
  }

  // ------------------------------------------------------- after a callback error

  /** The i-th step is the callback returning an error. */
  ghost predicate CallbackFails(states: seq<State>, steps: seq<Step>, i: nat) {
    i < |steps| && i < |states| && states[i].ev.dispatcher.Calling? && steps[i] == Dispatch(false)
  }

  /** Where the dispatcher stands after a callback error, before it has looked for the session to
      fail. */
  ghost predicate BeforeGrab(s: State) {
    s.ev.dispatcher.Stopping? || (s.ev.dispatcher.Grabbing? && Stopped(s.ev))
  }

  /** And after it, having found `x`: it stops delivery, makes the error the client's terminal one
      unless the client is closed, cancels the supervisor, and fails the session. */
  ghost predicate AfterGrab(s: State, x: Option<nat>) {
    Stopped(s.ev) && (x.Some? ==> x.value < |s.sessions|) &&
    match s.ev.dispatcher
    case SettingTerminal(y) => y == x
    case Cancelling(y) => y == x && Decided(s.client)
    case Failing(y) => y == x && Decided(s.client) && (s.done || s.client.closed)
    case Exited => Decided(s.client) && (s.done || s.client.closed) && (x.Some? ==> FailedAt(s, x.value))
    case _ => false
  }

  lemma BesideKeepsGrab(timeout: nat, s: State, step: Step, x: Option<nat>)
    requires Shape(s) && AfterGrab(s, x) && Enabled(s, step) && !step.Dispatch?
    ensures AfterGrab(Apply(timeout, s, step), x)
  {
    var s' := Apply(timeout, s, step);
    StepKeepsStopped(timeout, s, step);
    StepSection(timeout, s, step);
    StepGrowsSessions(timeout, s, step);
    if s.done {
      DoneStays(timeout, s, step);
    }
    assert s'.ev.dispatcher == s.ev.dispatcher by {
      if step.Supervise? {
        SuperviseLeavesDispatcher(timeout, s, step.choice);
      }
    }
  }

  lemma DispatchKeepsGrab(s: State, ok: bool, x: Option<nat>)
    requires AfterGrab(s, x) && Enabled(s, Dispatch(ok))
    ensures AfterGrab(DispatchStep(s, ok), x)
  {
    match s.ev.dispatcher
    case SettingTerminal(_) =>
    case Cancelling(_) =>
    case Failing(_) =>
      if x.Some? {
        FailWanes(s.sessions, x.value, TERMINAL);
      }
  }

  lemma BesideKeepsBefore(timeout: nat, s: State, step: Step)
    requires BeforeGrab(s) && Enabled(s, step) && !step.Dispatch?
    ensures BeforeGrab(Apply(timeout, s, step))
  {
    if s.ev.stopped && s.ev.queue == [] {
      StepKeepsStopped(timeout, s, step);
    }
    if step.Supervise? {
      SuperviseLeavesDispatcher(timeout, s, step.choice);
    }
  }

  lemma DispatchKeepsBefore(s: State, ok: bool)
    requires Shape(s) && BeforeGrab(s) && Enabled(s, Dispatch(ok))
    ensures if s.ev.dispatcher.Grabbing? then AfterGrab(DispatchStep(s, ok), s.client.currentSession)
            else BeforeGrab(DispatchStep(s, ok))
  {}

  /** What is known at j: the dispatcher has not looked for the session yet, or did so at `grab`. */
  ghost predicate Aftermath(states: seq<State>, steps: seq<Step>, i: nat, j: nat, grab: nat) {
    j < |states| && j <= |steps| &&
    (|| (grab == j && BeforeGrab(states[j]))
     || (&& i < grab < j && states[grab].ev.dispatcher.Grabbing? && steps[grab].Dispatch?
         && AfterGrab(states[j], states[grab].client.currentSession)))
  }

  lemma AftermathNext(timeout: nat, states: seq<State>, steps: seq<Step>, i: nat, j: nat, grab: nat)
    returns (grab': nat)
    requires IsRun(timeout, states, steps) && i < j < |steps| && Aftermath(states, steps, i, j, grab)
    ensures Aftermath(states, steps, i, j + 1, grab')
  {
    RunKeepsShape(timeout, states, steps, j);
    grab' := grab;
    if grab == j {
      var now := StepBefore(timeout, states[j], steps[j]);
      grab' := if now then j else j + 1;
    } else {
      StepKeepsGrab(timeout, states[j], steps[j], states[grab].client.currentSession);
    }
  }

  lemma {:induction false} RunAftermath(timeout: nat, states: seq<State>, steps: seq<Step>, i: nat, j: nat)
    returns (grab: nat)
    requires IsRun(timeout, states, steps) && CallbackFails(states, steps, i) && i < j < |states|
    ensures Aftermath(states, steps, i, j, grab)
    decreases j
  {
    if i + 1 == j {
      grab := j;
    } else {
      grab := RunAftermath(timeout, states, steps, i, j - 1);
      grab := AftermathNext(timeout, states, steps, i, j - 1, grab);
    }
  }

  /** In every run, from a callback error on: no event is ever delivered again; the dispatcher
      looks for the current session once; and when it has exited, the client is closed or has a
      terminal error, is cancelled, and the session it found has failed. */
  lemma CallbackErrorEnds(timeout: nat, states: seq<State>, steps: seq<Step>, i: nat, j: nat) returns (grab: nat)
    requires IsRun(timeout, states, steps) && CallbackFails(states, steps, i) && i < j < |states|
    ensures states[j].ev.delivered == states[i].ev.delivered
    ensures || (grab == j && BeforeGrab(states[j]))
            || (&& i < grab < j && states[grab].ev.dispatcher.Grabbing? && steps[grab].Dispatch?
                && AfterGrab(states[j], states[grab].client.currentSession))
  {
    grab := RunAftermath(timeout, states, steps, i, j);
    NoCallbackAfterError(timeout, states, steps, i + 1, j);
  }

  /** The dispatcher looks for the session now, or later. */
  lemma StepBefore(timeout: nat, s: State, step: Step) returns (now: bool)
    requires Shape(s) && BeforeGrab(s) && Enabled(s, step)
    ensures if now then s.ev.dispatcher.Grabbing? && step.Dispatch? &&
                        AfterGrab(Apply(timeout, s, step), s.client.currentSession)
            else BeforeGrab(Apply(timeout, s, step))
  {
    now := s.ev.dispatcher.Grabbing? && step.Dispatch?;
    if step.Dispatch? {
      DispatchKeepsBefore(s, step.callbackOk);
    } else {
      BesideKeepsBefore(timeout, s, step);
    }
  }

  lemma StepKeepsGrab(timeout: nat, s: State, step: Step, x: Option<nat>)
    requires Shape(s) && AfterGrab(s, x) && Enabled(s, step)
    ensures AfterGrab(Apply(timeout, s, step), x)
  {
    if step.Dispatch? {
      DispatchKeepsGrab(s, step.callbackOk, x);
    } else {
      BesideKeepsGrab(timeout, s, step, x);
    }
  }

  // ------------------------------------------------------------ reasons to stop

  /** Close has stopped the delivery. */
  predicate StoppedByClose(closer: Closer) {
    closer.WakeEvents? || closer.CloseSession? || closer.AwaitSupervisor? || closer.ClosedAll?
  }

  ghost predicate OnlyCloseStops(s: State) {
    && (s.ev.stopped <==> StoppedByClose(s.calls.closer))
    && (Over(s.ev.dispatcher) ==> s.ev.dispatcher.Exited? && s.ev.stopped)
  }

  lemma SuperviseLeavesStop(timeout: nat, s: State, k: Choice)
    ensures SuperviseStep(timeout, s, k).ev.stopped == s.ev.stopped
  {
    IdleSilent(s, k);
    SetupSilent(s, k);
    EndSilent(timeout, s, k);
    RunLeavesStop(s, k);
    OneOfTheParts(timeout, s, k);
  }

  lemma RunLeavesStop(s: State, k: Choice)
    ensures SuperviseRun(s, k).ev.stopped == s.ev.stopped
  {
    match s.sup.pc
    case AnnounceUp(_) =>
    case WakeUp(_) =>
    case AnnounceDown(_) =>
    case WakeDown(_) =>
    case _ => assert SuperviseRun(s, k).ev == s.ev;
  }

  lemma StepOnlyCloseStops(timeout: nat, s: State, step: Step)
    requires OnlyCloseStops(s) && Enabled(s, step)
    requires !(s.ev.dispatcher.Calling? && step == Dispatch(false))
    ensures OnlyCloseStops(Apply(timeout, s, step))
  {
    match step
    case Supervise(k) =>
      SuperviseLeavesStop(timeout, s, k);
      SuperviseLeavesDispatcher(timeout, s, k);
      SuperviseLeavesCalls(timeout, s, k);
    case Dispatch(_) =>
    case Close =>
    case _ => assert Apply(timeout, s, step).ev == s.ev;
  }

  /** As long as no callback has failed, delivery is stopped by Close and by nothing else: callbacks
      that succeed never end the dispatcher. */
  lemma {:induction false} StopsOnlyForClose(timeout: nat, states: seq<State>, steps: seq<Step>, i: nat)
    requires IsRun(timeout, states, steps) && i < |states|
    requires forall j :: 0 <= j < i ==> !CallbackFails(states, steps, j)
    ensures OnlyCloseStops(states[i])
  {
    if i != 0 {
      StopsOnlyForClose(timeout, states, steps, i - 1);
      assert !CallbackFails(states, steps, i - 1);
      StepOnlyCloseStops(timeout, states[i - 1], steps[i - 1]);
    }
  }
}
