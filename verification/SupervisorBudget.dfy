/** What every run keeps about web sessions and about the time spent reconnecting. */
module SupervisorBudget {
  import opened Reconnect
  import opened Supervisor
  import opened SupervisorSessions

  /** Steps of other goroutines leave the supervisor's variables alone. */
  lemma OthersLeaveSup(timeout: nat, s: State, step: Step)
    requires Enabled(s, step) && !step.Supervise?
    ensures Apply(timeout, s, step).sup == s.sup
  {}

  // --------------------------------------------------------- web sessions

  function Upto(n: nat): seq<nat> {
    seq(n, i => i)
  }

  /** How many of the web sessions authenticated so far are not in the supervisor's hands. */
  function NotHeld(u: Sup): nat {
    if u.web.Some? && 0 < u.webs then u.webs - 1 else u.webs
  }

  /** The supervisor holds no web session while it waits to be resumed, authenticates or backs
      off, nor at the end. */
  predicate WithoutWeb(pc: Pc) {
    || pc.WaitResumed? || pc.BlockedOnResume? || pc.Authenticating? || pc.AuthFailed? || pc.BackingOff? || pc.Timing?
    || pc.CloseState? || pc.Finished?
  }

  /** It holds one while it connects and runs a tunnel. */
  predicate WithWeb(pc: Pc) {
    || pc.TestSuspendedAuth? || pc.Connecting? || PcSession(pc).Some? || pc.AnnounceDown? || pc.WakeDown?
    || pc.AfterRun? || pc.AfterRunSuspended?
  }

  /** At most the latest web session is held, and every other one has been released exactly
      once, in order. */
  ghost predicate WebsCounted(u: Sup) {
    (u.web.Some? ==> u.webs > 0 && u.web.value == u.webs - 1) && u.releasedWebs == Upto(NotHeld(u))
  }

  predicate WebPlaced(u: Sup) {
    (WithoutWeb(u.pc) ==> u.web.None?) && (WithWeb(u.pc) ==> u.web.Some?)
  }

  ghost predicate WebsReleased(u: Sup) {
    WebsCounted(u) && WebPlaced(u)
  }

  predicate SameWebs(u: Sup, u': Sup) {
    u'.web == u.web && u'.webs == u.webs && u'.releasedWebs == u.releasedWebs
  }

  /** Nothing happens to web sessions, the held one is discarded, or a new one is authenticated. */
  ghost predicate WebsMove(u: Sup, u': Sup) {
    || SameWebs(u, u') || SameWebs(Discard(u), u')
    || (&& u.web.None? && u'.web.Some? && u'.web.value == u.webs
        && u'.webs == u.webs + 1 && u'.releasedWebs == u.releasedWebs)
  }

  lemma MoveCounts(u: Sup, u': Sup)
    requires WebsCounted(u) && WebsMove(u, u')
    ensures WebsCounted(u')
  {
    DiscardReleases(u);
  }

  lemma DiscardReleases(u: Sup)
    requires WebsCounted(u)
    ensures Discard(u).web.None? && Discard(u).releasedWebs == Upto(u.webs) && Discard(u).webs == u.webs
  {
    if u.web.Some? {
      assert Upto(u.webs) == Upto(u.webs - 1) + [u.webs - 1];
    }
  }

  lemma IdleReleases(s: State, k: Choice)
    requires WebsReleased(s.sup)
    ensures WebsReleased(SuperviseIdle(s, k).sup)
  {
    IdleMovesWebs(s, k);
    MoveCounts(s.sup, SuperviseIdle(s, k).sup);
    IdlePlaces(s, k);
  }

  lemma IdleMovesWebs(s: State, k: Choice)
    requires WebPlaced(s.sup)
    ensures WebsMove(s.sup, SuperviseIdle(s, k).sup)
  {
    match s.sup.pc
    case Top =>
    case TestSuspended =>
    case WaitResumed =>
    case BlockedOnResume(_) =>
    case Authenticating =>
    case AuthFailed(_) =>
    case TestSuspendedAuth =>
    case Connecting =>
    case _ => assert SuperviseIdle(s, k) == s;
  }

  lemma IdlePlaces(s: State, k: Choice)
    requires WebPlaced(s.sup)
    ensures WebPlaced(SuperviseIdle(s, k).sup)
  {
    match s.sup.pc
    case Top =>
    case TestSuspended =>
    case WaitResumed =>
    case BlockedOnResume(_) =>
    case Authenticating =>
    case AuthFailed(_) =>
    case TestSuspendedAuth =>
    case Connecting =>
    case _ => assert SuperviseIdle(s, k) == s;
  }

  /** With a tunnel session at hand the supervisor only moves on and writes to the log. */
  lemma TunnelOnlyMoves(s: State, k: Choice)
    ensures SuperviseSetup(s, k) == s || OnlyMoves(s.sup, SuperviseSetup(s, k).sup)
    ensures SuperviseRun(s, k) == s || OnlyMoves(s.sup, SuperviseRun(s, k).sup)
  {
    SetupOnlyMoves(s, k);
    RunOnlyMoves(s, k);
  }

  ghost predicate OnlyMoves(u: Sup, u': Sup) {
    && u' == u.(pc := u'.pc, log := u'.log)
    && WithWeb(u.pc) && WithWeb(u'.pc) && !Gone(u.pc) && !u'.pc.Timing?
  }

  lemma SetupOnlyMoves(s: State, k: Choice)
    ensures SuperviseSetup(s, k) == s || OnlyMoves(s.sup, SuperviseSetup(s, k).sup)
  {
    match s.sup.pc
    case SetCurrent(_) =>
    case CloseRefused(_) =>
    case Starting(_) =>
    case Publishing(_) =>
    case ClearUnpublished(_) =>
    case CloseUnpublished(_) =>
    case _ => assert SuperviseSetup(s, k) == s;
  }

  lemma RunOnlyMoves(s: State, k: Choice)
    ensures SuperviseRun(s, k) == s || OnlyMoves(s.sup, SuperviseRun(s, k).sup)
  {
    match s.sup.pc
    case AnnounceUp(_) =>
    case WakeUp(_) =>
    case TestSuspendedRun(_) =>
    case FailOwn(_) =>
    case WaitingDone(_) =>
    case CloseEnded(_, _) =>
    case ClearEnded(_, _) =>
    case AnnounceDown(_) =>
    case WakeDown(_) =>
    case _ => assert SuperviseRun(s, k) == s;
  }

  lemma TunnelReleases(s: State, k: Choice)
    requires WebsReleased(s.sup)
    ensures WebsReleased(SuperviseSetup(s, k).sup) && WebsReleased(SuperviseRun(s, k).sup)
  {
    TunnelOnlyMoves(s, k);
  }

  lemma EndReleases(timeout: nat, s: State, k: Choice)
    requires WebsReleased(s.sup)
    ensures WebsReleased(SuperviseEnd(timeout, s, k).sup)
  {
    EndMovesWebs(timeout, s, k);
    MoveCounts(s.sup, SuperviseEnd(timeout, s, k).sup);
    EndPlaces(timeout, s, k);
  }

  lemma EndMovesWebs(timeout: nat, s: State, k: Choice)
    ensures WebsMove(s.sup, SuperviseEnd(timeout, s, k).sup)
  {
    match s.sup.pc
    case AfterRun(_, _) =>
    case AfterRunSuspended(_, _) =>
    case BackingOff =>
    case Timing(_) =>
    case SetTerminal(_) =>
    case CancelSelf =>
    case ReleaseWeb =>
    case CloseState =>
    case _ => assert SuperviseEnd(timeout, s, k) == s;
  }

  lemma EndPlaces(timeout: nat, s: State, k: Choice)
    requires WebPlaced(s.sup)
    ensures WebPlaced(SuperviseEnd(timeout, s, k).sup)
  {
    match s.sup.pc
    case AfterRun(_, _) =>
    case AfterRunSuspended(_, _) =>
    case BackingOff =>
    case Timing(_) =>
    case SetTerminal(_) =>
    case CancelSelf =>
    case ReleaseWeb =>
    case CloseState =>
    case _ => assert SuperviseEnd(timeout, s, k) == s;
  }

  lemma StepReleases(timeout: nat, s: State, step: Step)
    requires WebsReleased(s.sup) && Enabled(s, step)
    ensures WebsReleased(Apply(timeout, s, step).sup)
  {
    if step.Supervise? {
      IdleReleases(s, step.choice);
      TunnelReleases(s, step.choice);
      EndReleases(timeout, s, step.choice);
      OneOfTheParts(timeout, s, step.choice);
    } else {
      OthersLeaveSup(timeout, s, step);
    }
  }

  lemma {:induction false} RunReleases(timeout: nat, states: seq<State>, steps: seq<Step>, i: nat)
    requires IsRun(timeout, states, steps) && i < |states|
    ensures WebsReleased(states[i].sup)
  {
    if i != 0 {
      RunReleases(timeout, states, steps, i - 1);
      StepReleases(timeout, states[i - 1], steps[i - 1]);
    }
  }

  /** In every run at most one web session is held, none while waiting to be resumed, and each is
      released exactly once by the time the supervisor has finished; and whenever an
      authentication starts, every tunnel session made so far has been closed. */
  lemma WebSessionsReleased(timeout: nat, states: seq<State>, steps: seq<Step>, i: nat)
    requires IsRun(timeout, states, steps) && i < |states|
    ensures var s := states[i];
            && s.sup.releasedWebs == Upto(NotHeld(s.sup))
            && (s.sup.pc.WaitResumed? || s.sup.pc.BlockedOnResume? ==> s.sup.web.None?)
            && (s.sup.pc.Finished? ==> s.sup.releasedWebs == Upto(s.sup.webs))
            && (s.sup.pc.Authenticating? ==>
                  s.sup.web.None? && forall x :: 0 <= x < |s.sessions| ==> s.sessions[x].closed)
  {
    RunReleases(timeout, states, steps, i);
    RunKeepsShape(timeout, states, steps, i);
  }

  ghost predicate CloseWaited(s: State) {
    s.calls.closer.ClosedAll? ==> s.sup.pc.Finished?
  }

  lemma StepWaits(timeout: nat, s: State, step: Step)
    requires CloseWaited(s) && Enabled(s, step)
    ensures CloseWaited(Apply(timeout, s, step))
  {
    if step.Supervise? {
      SuperviseLeavesCalls(timeout, s, step.choice);
    } else {
      OthersLeaveSup(timeout, s, step);
    }
  }

  lemma {:induction false} RunWaits(timeout: nat, states: seq<State>, steps: seq<Step>, i: nat)
    requires IsRun(timeout, states, steps) && i < |states|
    ensures CloseWaited(states[i])
  {
    if i != 0 {
      RunWaits(timeout, states, steps, i - 1);
      StepWaits(timeout, states[i - 1], steps[i - 1]);
    }
  }

  /** Once Close has returned, the supervisor has finished, every tunnel session ever made has
      been closed and no longer is current, and every web session has been released, once. */
  lemma ClosedCleanly(timeout: nat, states: seq<State>, steps: seq<Step>, i: nat)
    requires IsRun(timeout, states, steps) && i < |states| && states[i].calls.closer.ClosedAll?
    ensures var s := states[i];
            && s.sup.pc.Finished? && s.client.currentSession.None? && s.client.publishedSession.None?
            && (forall x :: 0 <= x < |s.sessions| ==> s.sessions[x].closed)
            && s.sup.web.None? && s.sup.releasedWebs == Upto(s.sup.webs)
  {
    RunWaits(timeout, states, steps, i);
    RunReleases(timeout, states, steps, i);
    RunKeepsShape(timeout, states, steps, i);
  }

  // ------------------------------------------------------ reconnect budget

  ghost predicate BudgetKept(timeout: nat, u: Sup) {
    && OnSchedule(u.reconnect, u.tries, timeout, u.waited)
    && (u.pc.Timing? ==> !OutOfBudget(u.reconnect) && u.pc.wait == NextWait(u.reconnect))
    && (0 < u.timeouts ==>
          u.reconnect.reconnecting && u.waited == timeout && u.tries == WaitsFor(timeout) && Gone(u.pc))
  }

  /** The supervisor is on its way out. */
  predicate Gone(pc: Pc) {
    pc.SetTerminal? || pc.CancelSelf? || pc.ReleaseWeb? || pc.CloseState? || pc.Finished?
  }

  lemma IdleKeepsBudget(timeout: nat, s: State, k: Choice)
    requires BudgetKept(timeout, s.sup)
    ensures BudgetKept(timeout, SuperviseIdle(s, k).sup)
  {
    FreshOnSchedule(s.sup.reconnect, timeout);
    match s.sup.pc
    case Top =>
    case TestSuspended =>
    case WaitResumed =>
    case BlockedOnResume(_) =>
    case Authenticating =>
    case AuthFailed(_) =>
    case TestSuspendedAuth =>
    case Connecting =>
    case _ => assert SuperviseIdle(s, k) == s;
  }

  lemma TunnelKeepsBudget(timeout: nat, s: State, k: Choice)
    requires BudgetKept(timeout, s.sup)
    ensures BudgetKept(timeout, SuperviseSetup(s, k).sup) && BudgetKept(timeout, SuperviseRun(s, k).sup)
  {
    TunnelOnlyMoves(s, k);
  }

  lemma EndKeepsBudget(timeout: nat, s: State, k: Choice)
    requires BudgetKept(timeout, s.sup)
    ensures BudgetKept(timeout, SuperviseEnd(timeout, s, k).sup)
  {
    var u := s.sup;
    FreshOnSchedule(u.reconnect, timeout);
    match u.pc
    case AfterRun(_, _) =>
    case AfterRunSuspended(_, _) =>
    case BackingOff =>
      if OutOfBudget(u.reconnect) {
        OutOfBudgetExactly(u.reconnect, u.tries, timeout, u.waited);
      }
    case Timing(_) => WaitKeepsSchedule(u.reconnect, u.tries, timeout, u.waited);
    case SetTerminal(_) =>
    case CancelSelf =>
    case ReleaseWeb =>
    case CloseState =>
    case _ => assert SuperviseEnd(timeout, s, k) == s;
  }

  lemma {:induction false} RunKeepsBudget(timeout: nat, states: seq<State>, steps: seq<Step>, i: nat)
    requires IsRun(timeout, states, steps) && i < |states|
    ensures BudgetKept(timeout, states[i].sup)
  {
    if i == 0 {
      FreshOnSchedule(NewReconnectState(), timeout);
    } else {
      RunKeepsBudget(timeout, states, steps, i - 1);
      StepKeepsBudget(timeout, states[i - 1], steps[i - 1]);
    }
  }

  lemma StepKeepsBudget(timeout: nat, s: State, step: Step)
    requires BudgetKept(timeout, s.sup) && Enabled(s, step)
    ensures BudgetKept(timeout, Apply(timeout, s, step).sup)
  {
    if step.Supervise? {
      IdleKeepsBudget(timeout, s, step.choice);
      TunnelKeepsBudget(timeout, s, step.choice);
      EndKeepsBudget(timeout, s, step.choice);
      OneOfTheParts(timeout, s, step.choice);
    } else {
      OthersLeaveSup(timeout, s, step);
    }
  }

  /** In every run the time waited since a tunnel was lost and the remaining budget add up to the
      configured timeout, the remainder is never negative, the backoff is one of the seven
      values, and no more waits happen than the closed form allows; when the reconnect timeout
      is raised, exactly that many waits have spent exactly the whole budget. */
  lemma ReconnectBudget(timeout: nat, states: seq<State>, steps: seq<Step>, i: nat)
    requires IsRun(timeout, states, steps) && i < |states|
    ensures var u := states[i].sup;
            && u.reconnect.backoff in
               {1 * SECOND, 2 * SECOND, 4 * SECOND, 8 * SECOND, 16 * SECOND, 32 * SECOND, 60 * SECOND}
            && (u.reconnect.reconnecting ==> u.waited + u.reconnect.timeoutRemaining == timeout)
            && (u.reconnect.reconnecting ==> 0 <= u.reconnect.timeoutRemaining && u.tries <= WaitsFor(timeout))
            && (u.reconnect.reconnecting && u.pc.BackingOff? ==>
                  (OutOfBudget(u.reconnect) <==> u.tries == WaitsFor(timeout)))
            && (0 < u.timeouts ==> u.waited == timeout && u.tries == WaitsFor(timeout))
  {
    RunKeepsBudget(timeout, states, steps, i);
    var u := states[i].sup;
    BackoffValues(u.tries);
    if u.reconnect.reconnecting {
      OutOfBudgetExactly(u.reconnect, u.tries, timeout, u.waited);
    }
  }
}
