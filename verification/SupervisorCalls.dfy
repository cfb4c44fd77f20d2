/** What the calls of Suspend and RestartSession do to the sessions they saw (client.go:154-179). */
module SupervisorCalls {
  import opened Lifecycle
  import opened Supervisor
  import opened SupervisorSessions
  import opened SupervisorSuspension

  ghost predicate FailedAt(s: State, x: nat) {
    x < |s.sessions| && s.sessions[x].failed
  }

  /** The call that owes the session a Fail has been through, or still holds it. */
  ghost predicate Heard(s: State, calls: seq<nat>, x: nat) {
    FailedAt(s, x) || (x in calls && x < |s.sessions|)
  }

  lemma SuspendStaysHeard(timeout: nat, s: State, step: Step, x: nat)
    requires Shape(s) && Enabled(s, step) && Heard(s, s.calls.owed, x)
    ensures Heard(Apply(timeout, s, step), Apply(timeout, s, step).calls.owed, x)
  {
    StepGrowsSessions(timeout, s, step);
    match step
    case Supervise(k) => SuperviseLeavesCalls(timeout, s, k);
    case FailSuspended(i) =>
      FailWanes(s.sessions, s.calls.owed[i], SUSPENDED);
      if x in s.calls.owed && x != s.calls.owed[i] {
        InWithout(s.calls.owed, i, x);
      }
    case CallSuspend =>
    case _ => assert Apply(timeout, s, step).calls.owed == s.calls.owed;
  }

  lemma RestartStaysHeard(timeout: nat, s: State, step: Step, x: nat)
    requires Shape(s) && Enabled(s, step) && Heard(s, s.calls.restarts, x)
    ensures Heard(Apply(timeout, s, step), Apply(timeout, s, step).calls.restarts, x)
  {
    StepGrowsSessions(timeout, s, step);
    match step
    case Supervise(k) => SuperviseLeavesCalls(timeout, s, k);
    case FailRestarted(i) =>
      FailWanes(s.sessions, s.calls.restarts[i], NO_ERROR);
      if x in s.calls.restarts && x != s.calls.restarts[i] {
        InWithout(s.calls.restarts, i, x);
      }
    case CallRestart =>
    case _ => assert Apply(timeout, s, step).calls.restarts == s.calls.restarts;
  }

  lemma SuspendOwes(timeout: nat, s: State, x: nat)
    requires Shape(s) && !s.client.suspended && !s.client.closed && s.client.publishedSession == Some(x)
    ensures var s' := Apply(timeout, s, CallSuspend); s'.client.suspended && Heard(s', s'.calls.owed, x)
  {
    assert Apply(timeout, s, CallSuspend).calls.owed[|s.calls.owed|] == x;
  }

  lemma RestartOwes(timeout: nat, s: State, x: nat)
    requires Shape(s) && s.client.currentSession == Some(x)
    ensures var s' := Apply(timeout, s, CallRestart); Heard(s', s'.calls.restarts, x)
  {
    assert Apply(timeout, s, CallRestart).calls.restarts[|s.calls.restarts|] == x;
  }

  /** A Suspend call on a client that is running fails the session it found published, or is still
      about to, in every later state. */
  lemma {:induction false} SuspendFails(
    timeout: nat, states: seq<State>, steps: seq<Step>, i: nat, j: nat, x: nat)
    requires IsRun(timeout, states, steps) && i < j < |states| && steps[i] == CallSuspend
    requires !states[i].client.suspended && !states[i].client.closed
    requires states[i].client.publishedSession == Some(x)
    ensures states[i + 1].client.suspended && Heard(states[j], states[j].calls.owed, x)
    decreases j
  {
    RunKeepsShape(timeout, states, steps, j - 1);
    if i + 1 == j {
      SuspendOwes(timeout, states[i], x);
    } else {
      SuspendFails(timeout, states, steps, i, j - 1, x);
      SuspendStaysHeard(timeout, states[j - 1], steps[j - 1], x);
    }
  }

  /** A RestartSession call fails the session it found current, or is still about to, in every
      later state. */
  lemma {:induction false} RestartFails(
    timeout: nat, states: seq<State>, steps: seq<Step>, i: nat, j: nat, x: nat)
    requires IsRun(timeout, states, steps) && i < j < |states| && steps[i] == CallRestart
    requires states[i].client.currentSession == Some(x)
    ensures Heard(states[j], states[j].calls.restarts, x)
    decreases j
  {
    RunKeepsShape(timeout, states, steps, j - 1);
    if i + 1 == j {
      RestartOwes(timeout, states[i], x);
    } else {
      RestartFails(timeout, states, steps, i, j - 1, x);
      RestartStaysHeard(timeout, states[j - 1], steps[j - 1], x);
    }
  }

  lemma OutOfWithout(calls: seq<nat>, i: nat, x: nat)
    requires i < |calls| && x in Without(calls, i)
    ensures x in calls
  {
    var k :| 0 <= k < |Without(calls, i)| && Without(calls, i)[k] == x;
    assert x == if k < i then calls[k] else calls[k + 1];
  }

  lemma NewlyOwed(timeout: nat, s: State, step: Step, x: nat)
    requires Enabled(s, step) && x in Apply(timeout, s, step).calls.owed
    ensures x in s.calls.owed ||
            (step.CallSuspend? && s.client.publishedSession == Some(x) && !s.client.suspended && !s.client.closed)
  {
    match step
    case Supervise(k) => SuperviseLeavesCalls(timeout, s, k);
    case FailSuspended(i) => OutOfWithout(s.calls.owed, i, x);
    case CallSuspend =>
    case _ => assert Apply(timeout, s, step).calls.owed == s.calls.owed;
  }

  /** Suspend calls fail no other sessions: one owed a Fail was published when the client was
      suspended. */
  lemma {:induction false} OwedWasPublished(timeout: nat, states: seq<State>, steps: seq<Step>, i: nat, x: nat)
    returns (j: nat)
    requires IsRun(timeout, states, steps) && i < |states| && x in states[i].calls.owed
    ensures j < i && steps[j] == CallSuspend && states[j].client.publishedSession == Some(x)
    ensures !states[j].client.suspended && !states[j].client.closed
  {
    j := i - 1;
    NewlyOwed(timeout, states[j], steps[j], x);
    if x in states[j].calls.owed {
      j := OwedWasPublished(timeout, states, steps, j, x);
    }
  }

  /** A Resume call leaves the client resumed, and nobody who waits for it stays blocked. */
  lemma ResumeUnblocks(timeout: nat, states: seq<State>, steps: seq<Step>, i: nat)
    requires IsRun(timeout, states, steps) && i < |steps| && steps[i] == CallResume
    ensures !states[i + 1].client.suspended
    ensures states[i + 1].sup.pc.BlockedOnResume? ==> Unblocked(states[i + 1], Choice(true, false, false))
  {
    RunKeepsShape(timeout, states, steps, i);
    ResumedChannels(timeout, states, steps, i + 1);
  }

  /** A call of Close on its way carries the session it found current, and has closed it once it
      waits for the supervisor. */
  ghost predicate Closes(s: State, x: nat) {
    x < |s.sessions| &&
    match s.calls.closer
    case NotClosing => false
    case StopEvents(y) => y == Some(x)
    case WakeEvents(y) => y == Some(x)
    case CloseSession(y) => y == Some(x)
    case AwaitSupervisor => s.sessions[x].closed
    case ClosedAll => s.sessions[x].closed
  }

  lemma StepCloses(timeout: nat, s: State, step: Step, x: nat)
    requires Shape(s) && Closes(s, x) && Enabled(s, step)
    ensures Closes(Apply(timeout, s, step), x)
  {
    StepGrowsSessions(timeout, s, step);
    match step
    case Supervise(k) => SuperviseLeavesCalls(timeout, s, k);
    case Close => CloseWanes(s.sessions, x);
    case _ => assert Apply(timeout, s, step).calls.closer == s.calls.closer;
  }

  /** In every run a call of Close closes the session it found current before it waits for the
      supervisor. */
  lemma {:induction false} CloseCloses(timeout: nat, states: seq<State>, steps: seq<Step>, i: nat, j: nat, x: nat)
    requires IsRun(timeout, states, steps) && i < j < |states| && steps[i] == CallClose
    requires states[i].client.currentSession == Some(x)
    ensures Closes(states[j], x)
    decreases j
  {
    RunKeepsShape(timeout, states, steps, j - 1);
    if i + 1 < j {
      CloseCloses(timeout, states, steps, i, j - 1, x);
      StepCloses(timeout, states[j - 1], steps[j - 1], x);
    }
  }

  /** Whoever closes a session has failed it. */
  ghost predicate ClosedFailed(sessions: seq<Session>) {
    forall x :: 0 <= x < |sessions| && sessions[x].closed ==> sessions[x].failed
  }

  lemma CloseKeepsClosedFailed(sessions: seq<Session>, x: nat)
    requires ClosedFailed(sessions)
    ensures ClosedFailed(CloseAt(sessions, x))
  {}

  lemma SuperviseClosedFailed(timeout: nat, s: State, k: Choice)
    requires ClosedFailed(s.sessions)
    ensures ClosedFailed(SuperviseIdle(s, k).sessions) && ClosedFailed(SuperviseSetup(s, k).sessions)
    ensures ClosedFailed(SuperviseRun(s, k).sessions) && ClosedFailed(SuperviseEnd(timeout, s, k).sessions)
  {
    if !s.sup.pc.Connecting? {
      IdleSessionless(s, k);
    }
    if !s.sup.pc.SetTerminal? && !s.sup.pc.CloseState? {
      EndSessionless(timeout, s, k);
    }
    SetupClosedFailed(s, k);
    RunClosedFailed(s, k);
  }

  lemma SetupClosedFailed(s: State, k: Choice)
    requires ClosedFailed(s.sessions)
    ensures ClosedFailed(SuperviseSetup(s, k).sessions)
  {
    match s.sup.pc
    case Starting(_) =>
    case CloseRefused(x) => CloseKeepsClosedFailed(s.sessions, x);
    case CloseUnpublished(x) => CloseKeepsClosedFailed(s.sessions, x);
    case _ => assert SuperviseSetup(s, k).sessions == s.sessions;
  }

  lemma RunClosedFailed(s: State, k: Choice)
    requires ClosedFailed(s.sessions)
    ensures ClosedFailed(SuperviseRun(s, k).sessions)
  {
    match s.sup.pc
    case FailOwn(_) =>
    case CloseEnded(x, _) => CloseKeepsClosedFailed(s.sessions, x);
    case _ => assert SuperviseRun(s, k).sessions == s.sessions;
  }

  lemma StepClosedFailed(timeout: nat, s: State, step: Step)
    requires ClosedFailed(s.sessions) && Enabled(s, step)
    ensures ClosedFailed(Apply(timeout, s, step).sessions)
  {
    match step
    case Supervise(k) =>
      SuperviseClosedFailed(timeout, s, k);
      OneOfTheParts(timeout, s, k);
    case Close =>
      if s.calls.closer.CloseSession? && s.calls.closer.session.Some? {
        CloseKeepsClosedFailed(s.sessions, s.calls.closer.session.value);
      }
    case Dispatch(_) =>
    case _ =>
  }

  /** In every run a session that has been closed has failed, so nobody goes on waiting for its end. */
  lemma {:induction false} ClosedHasFailed(timeout: nat, states: seq<State>, steps: seq<Step>, i: nat)
    requires IsRun(timeout, states, steps) && i < |states|
    ensures ClosedFailed(states[i].sessions)
  {
    if i != 0 {
      ClosedHasFailed(timeout, states, steps, i - 1);
      StepClosedFailed(timeout, states[i - 1], steps[i - 1]);
    }
  }
}
