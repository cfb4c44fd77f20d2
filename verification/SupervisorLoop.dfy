/** What every run of the supervisor's loop does: when it waits, retries, connects and ends, and
    that it ends once it is cancelled (client_supervisor.go:80-172 and 222-242). */
module SupervisorLoop {
  import opened Reconnect
  import opened Supervisor
  import opened SupervisorSessions
  import opened SupervisorBudget
  import opened SupervisorSuspension

  // ---------------------------------------------- suspended at the top of the loop

  predicate Waiting(pc: Pc) {
    pc.WaitResumed? || pc.BlockedOnResume?
  }

  /** The supervisor that found the client suspended at `u` waits without a web session, or is on
      its way out. */
  ghost predicate Waits(u: Sup, s: State) {
    Gone(s.sup.pc) || (Waiting(s.sup.pc) && s.sup.log == u.log && s.sup.web.None?)
  }

  /** What is left once the client has been resumed: a run of its own, not yet authenticated. */
  ghost predicate StartedOver(u: Sup, u': Sup) {
    && u'.pc.Authenticating? && u'.web.None? && u'.tries == 0 && u'.waited == 0 && u'.log == u.log + [Reset]
    && u'.reconnect == ReconnectState(INITIAL_BACKOFF, false, false, 0)
  }

  /** The client has been resumed since it was last found suspended. */
  ghost predicate SeesResumed(s: State) {
    match s.sup.pc
    case WaitResumed => !s.client.suspended
    case BlockedOnResume(channel) => channel < |s.client.resumes| && s.client.resumes[channel]
    case _ => false
  }

  lemma WaitsStep(timeout: nat, u: Sup, s: State, step: Step)
    requires Shape(s) && Waits(u, s) && Enabled(s, step)
    ensures var s' := Apply(timeout, s, step);
            Waits(u, s') || (step.Supervise? && SeesResumed(s) && StartedOver(u, s'.sup))
  {
    if Gone(s.sup.pc) {
      GoneStays(timeout, s, step);
    } else if !step.Supervise? {
      OthersLeaveSup(timeout, s, step);
    } else if s.sup.pc.WaitResumed? {
      assert s.client.suspended ==> s.client.resumes != [];
    }
  }

  /** The i-th step finds the client suspended at the top of the loop. */
  ghost predicate FindsSuspended(states: seq<State>, steps: seq<Step>, i: nat) {
    i < |steps| && i < |states| && states[i].sup.pc.TestSuspended? && states[i].client.suspended && steps[i].Supervise?
  }

  /** In every run a supervisor that finds the client suspended hands its web session back and
      waits; until it sees the client resumed it does nothing but leave, and then it starts a run
      of its own: not authenticated, with a fresh reconnect state and a reset in the log. */
  lemma {:induction false} SuspendedWaits(
    timeout: nat, states: seq<State>, steps: seq<Step>, i: nat, j: nat) returns (resumed: nat)
    requires IsRun(timeout, states, steps) && FindsSuspended(states, steps, i) && i < j < |states|
    ensures || (resumed == j && Waits(states[i].sup, states[j]))
            || (&& i < resumed < j && steps[resumed].Supervise? && SeesResumed(states[resumed])
                && StartedOver(states[i].sup, states[resumed + 1].sup))
    decreases j
  {
    if j == i + 1 {
      resumed := j;
    } else {
      resumed := SuspendedWaits(timeout, states, steps, i, j - 1);
      if resumed == j - 1 && Waits(states[i].sup, states[j - 1]) {
        RunKeepsShape(timeout, states, steps, j - 1);
        WaitsStep(timeout, states[i].sup, states[j - 1], steps[j - 1]);
        if Waits(states[i].sup, states[j]) {
          resumed := j;
        }
      }
    }
  }

  /** A tunnel is only ever connected with a web session in hand, right after a look that found the
      client not suspended. */
  lemma ConnectsOnlyResumed(timeout: nat, states: seq<State>, steps: seq<Step>, i: nat)
    requires IsRun(timeout, states, steps) && i < |steps|
    requires !states[i].sup.pc.Connecting? && states[i + 1].sup.pc.Connecting?
    ensures steps[i].Supervise? && !states[i].client.suspended && states[i + 1].sup.web.Some?
  {
    RunReleases(timeout, states, steps, i + 1);
    if steps[i].Supervise? {
      EntersConnecting(timeout, states[i], steps[i].choice);
    } else {
      OthersLeaveSup(timeout, states[i], steps[i]);
    }
  }

  lemma EntersConnecting(timeout: nat, s: State, k: Choice)
    requires !s.sup.pc.Connecting? && SuperviseStep(timeout, s, k).sup.pc.Connecting?
    ensures !s.client.suspended
  {
    match s.sup.pc
    case TestSuspended =>
    case TestSuspendedAuth =>
    case _ =>
  }

  // ------------------------------------------------------- attempts that fail

  /** The i-th step reacts to an authentication that failed, or to a tunnel that was never
      published. */
  ghost predicate FailsAttempt(states: seq<State>, steps: seq<Step>, i: nat) {
    i < |steps| && i < |states| && steps[i].Supervise? &&
    (states[i].sup.pc.AuthFailed? || (states[i].sup.pc.AfterRunSuspended? && !states[i].sup.pc.wasPublished))
  }

  predicate TerminalFailure(pc: Pc) {
    match pc
    case AuthFailed(terminal) => terminal
    case AfterRunSuspended(_, err) => err.terminal
    case _ => false
  }

  predicate SuspendedLook(s: State) {
    s.sup.pc.AfterRunSuspended? && (s.sup.pc.err.suspended || s.client.suspended)
  }

  /** The supervisor backs off with the reconnect state of `u` and no web session. */
  ghost predicate BacksOff(u: Sup, s: State) {
    || Gone(s.sup.pc)
    || (&& s.sup.log == u.log && s.sup.reconnect == u.reconnect && s.sup.tries == u.tries && s.sup.web.None?
        && (s.sup.pc.BackingOff? || (s.sup.pc == Timing(NextWait(u.reconnect)) && !OutOfBudget(u.reconnect))))
  }

  /** One more attempt has failed and its wait is over. */
  ghost predicate Retries(u: Sup, u': Sup) {
    && u'.pc.Top? && u'.log == u.log && u'.web.None? && !OutOfBudget(u.reconnect) && u'.tries == u.tries + 1
    && u'.reconnect == AttemptFailed(Waited(u.reconnect, NextWait(u.reconnect)))
  }

  lemma BacksOffStep(timeout: nat, u: Sup, s: State, step: Step)
    requires BacksOff(u, s) && Enabled(s, step)
    ensures var s' := Apply(timeout, s, step); BacksOff(u, s') || Retries(u, s'.sup)
  {
    if Gone(s.sup.pc) {
      GoneStays(timeout, s, step);
    } else if !step.Supervise? {
      OthersLeaveSup(timeout, s, step);
    }
  }

  lemma AttemptStep(timeout: nat, s: State, k: Choice)
    requires WebPlaced(s.sup)
    requires s.sup.pc.AuthFailed? || (s.sup.pc.AfterRunSuspended? && !s.sup.pc.wasPublished)
    ensures var s' := SuperviseStep(timeout, s, k);
            if SuspendedLook(s) then Looked(timeout, s.sup, s'.sup, false, true)
            else BacksOff(s.sup, s') && (TerminalFailure(s.sup.pc) ==> Gone(s'.sup.pc))
  {
    if s.sup.pc.AfterRunSuspended? {
      LookDecides(timeout, s, k);
    }
  }

  lemma {:induction false} BacksOffUntil(timeout: nat, states: seq<State>, steps: seq<Step>, i: nat, l: nat)
    requires IsRun(timeout, states, steps) && FailsAttempt(states, steps, i) && !SuspendedLook(states[i])
    requires i < l < |states| && forall n :: i < n <= l ==> !states[n].sup.pc.Top?
    ensures BacksOff(states[i].sup, states[l]) && (TerminalFailure(states[i].sup.pc) ==> Gone(states[l].sup.pc))
    decreases l
  {
    if i + 1 == l {
      RunReleases(timeout, states, steps, i);
      AttemptStep(timeout, states[i], steps[i].choice);
    } else {
      BacksOffUntil(timeout, states, steps, i, l - 1);
      BacksOffStep(timeout, states[i].sup, states[l - 1], steps[l - 1]);
      if Gone(states[l - 1].sup.pc) {
        GoneStays(timeout, states[l - 1], steps[l - 1]);
      }
    }
  }

  /** In every run in which an attempt fails and the supervisor goes back to the top: if it found a
      suspension after the tunnel attempt, a run of its own starts; otherwise the failure was not
      terminal, exactly one wait has been taken from what is left of the budget, the backoff has
      moved on, and no web session is held. */
  lemma FailedAttempt(timeout: nat, states: seq<State>, steps: seq<Step>, i: nat, j: nat)
    requires IsRun(timeout, states, steps) && FailsAttempt(states, steps, i) && BackAtTop(states, i, j)
    ensures if SuspendedLook(states[i]) then Looked(timeout, states[i].sup, states[j].sup, false, true) && j == i + 1
            else !TerminalFailure(states[i].sup.pc) && Retries(states[i].sup, states[j].sup)
  {
    RunReleases(timeout, states, steps, i);
    AttemptStep(timeout, states[i], steps[i].choice);
    if !SuspendedLook(states[i]) {
      if j != i + 1 {
        BacksOffUntil(timeout, states, steps, i, j - 1);
        BacksOffStep(timeout, states[i].sup, states[j - 1], steps[j - 1]);
        if Gone(states[j - 1].sup.pc) {
          GoneStays(timeout, states[j - 1], steps[j - 1]);
        }
      }
    }
  }
}
