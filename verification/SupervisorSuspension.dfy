/** What a suspension does to the run of the supervisor: the tunnel it ended is not the one that a
    later tunnel re-establishes, and its time is not charged to the reconnect timeout
    (client_supervisor.go:88-104 and 130-166). */
module SupervisorSuspension {
  import opened Lifecycle
  import opened Reconnect
  import opened Supervisor
  import opened SupervisorSessions
  import opened SupervisorBudget
  import opened SupervisorEvents

  // ------------------------------------------- from the end of a tunnel to the top

  /** The supervisor reacts to the end of a tunnel that was announced, with this error. */
  predicate Reacting(pc: Pc, err: Error) {
    match pc
    case CloseEnded(_, e) => e == err
    case ClearEnded(_, e) => e == err
    case AnnounceDown(e) => e == err
    case WakeDown(e) => e == err
    case AfterRun(published, e) => published && e == err
    case AfterRunSuspended(published, e) => published && e == err
    case _ => false
  }

  predicate DownPending(pc: Pc) {
    pc.CloseEnded? || pc.ClearEnded? || pc.AnnounceDown?
  }

  /** What has become of a tunnel that ended at `u` since: its end has been announced or will be,
      and nothing else has happened; or the supervisor is on its way out. When the tunnel ended
      because of the context alone, the supervisor does not get to look for a suspension. */
  ghost predicate Tail(u: Sup, err: Error, byContext: bool, s: State) {
    || Gone(s.sup.pc)
    || (&& Reacting(s.sup.pc, err)
        && s.sup.log == u.log + (if DownPending(s.sup.pc) then [] else [Down])
        && s.sup.reconnect == u.reconnect
        && (byContext ==> s.done && !s.sup.pc.AfterRunSuspended?))
  }

  lemma TailOutside(timeout: nat, u: Sup, err: Error, byContext: bool, s: State, step: Step)
    requires Shape(s) && Tail(u, err, byContext, s) && Enabled(s, step) && !step.Supervise?
    ensures Tail(u, err, byContext, Apply(timeout, s, step))
  {
    OutsideStep(timeout, s, step);
  }

  lemma TailClosing(u: Sup, err: Error, byContext: bool, s: State, k: Choice)
    requires Tail(u, err, byContext, s) && (s.sup.pc.CloseEnded? || s.sup.pc.ClearEnded?)
    ensures Tail(u, err, byContext, SuperviseRun(s, k))
  {
    if s.sup.pc.CloseEnded? {
      assert SuperviseRun(s, k).sup == s.sup.(pc := ClearEnded(s.sup.pc.session, err));
    } else {
      assert SuperviseRun(s, k).sup == s.sup.(pc := AnnounceDown(err));
    }
  }

  lemma TailAnnouncing(u: Sup, err: Error, byContext: bool, s: State, k: Choice)
    requires Tail(u, err, byContext, s) && (s.sup.pc.AnnounceDown? || s.sup.pc.WakeDown?)
    ensures Tail(u, err, byContext, SuperviseRun(s, k))
  {
    if s.sup.pc.AnnounceDown? {
      assert SuperviseRun(s, k).sup == s.sup.(pc := WakeDown(err), log := u.log + [Down]);
    } else {
      assert SuperviseRun(s, k).sup == s.sup.(pc := AfterRun(true, err));
    }
  }

  lemma TailAfterRun(timeout: nat, u: Sup, err: Error, byContext: bool, s: State, k: Choice)
    requires Tail(u, err, byContext, s) && s.sup.pc.AfterRun?
    ensures Tail(u, err, byContext, SuperviseEnd(timeout, s, k))
  {}

  /** The look at the suspension: the run goes on from the top, afresh or against the timeout, or
      a terminal error ends it. */
  ghost predicate Looked(timeout: nat, u: Sup, u': Sup, published: bool, suspended: bool) {
    if suspended then
      && u'.pc.Top? && u'.log == u.log + [Reset] && u'.web.None?
      && u'.reconnect == ReconnectState(INITIAL_BACKOFF, false, false, 0) && u'.tries == 0 && u'.waited == 0
    else
      && u'.log == u.log
      && (u'.pc.Top? ==>
            && u'.web.None? && u'.tries == 0 && u'.waited == 0
            && u'.reconnect == ReconnectState(INITIAL_BACKOFF, true, true, timeout))
      && (if u.pc.AfterRunSuspended? && u.pc.err.terminal then u'.pc == SetTerminal(u.pc.err)
          else u'.pc == if published then Top else BackingOff)
  }

  lemma LookDecides(timeout: nat, s: State, k: Choice)
    requires s.sup.pc.AfterRunSuspended?
    ensures Looked(timeout, s.sup, SuperviseEnd(timeout, s, k).sup, s.sup.pc.wasPublished,
                   s.sup.pc.err.suspended || s.client.suspended)
  {}

  lemma GoneStays(timeout: nat, s: State, step: Step)
    requires Gone(s.sup.pc) && Enabled(s, step)
    ensures Gone(Apply(timeout, s, step).sup.pc)
  {
    if !step.Supervise? {
      OthersLeaveSup(timeout, s, step);
    }
  }

  lemma TailStep(timeout: nat, u: Sup, err: Error, byContext: bool, s: State, step: Step)
    requires Shape(s) && Tail(u, err, byContext, s) && Enabled(s, step)
    ensures Tail(u, err, byContext, Apply(timeout, s, step)) || (s.sup.pc.AfterRunSuspended? && step.Supervise?)
  {
    if Gone(s.sup.pc) {
      GoneStays(timeout, s, step);
    } else if !step.Supervise? {
      TailOutside(timeout, u, err, byContext, s, step);
    } else if s.sup.pc.AfterRun? {
      TailAfterRun(timeout, u, err, byContext, s, step.choice);
    } else if s.sup.pc.CloseEnded? || s.sup.pc.ClearEnded? {
      TailClosing(u, err, byContext, s, step.choice);
    } else if !s.sup.pc.AfterRunSuspended? {
      TailAnnouncing(u, err, byContext, s, step.choice);
    }
  }

  predicate ByContext(s: State, k: Choice) {
    k.context && s.done
  }

  function ChosenError(s: State, k: Choice): Error
    requires s.sup.pc.WaitingDone?
  {
    if ByContext(s, k) || |s.sessions| <= s.sup.pc.session then NO_ERROR else s.sessions[s.sup.pc.session].error
  }

  /** The i-th step is the supervisor seeing the end of the tunnel that is up. */
  ghost predicate EndsTunnel(states: seq<State>, steps: seq<Step>, i: nat) {
    i < |steps| && i < |states| && states[i].sup.pc.WaitingDone? && steps[i].Supervise?
  }

  /** The supervisor has gone back to the top of its loop at j for the first time since i. */
  ghost predicate BackAtTop(states: seq<State>, i: nat, j: nat) {
    i < j < |states| && states[j].sup.pc.Top? && forall n :: i < n < j ==> !states[n].sup.pc.Top?
  }

  lemma TailNext(timeout: nat, states: seq<State>, steps: seq<Step>, i: nat, l: nat)
    requires IsRun(timeout, states, steps) && EndsTunnel(states, steps, i) && i < l < |steps|
    requires TailAt(states, steps, i, l) && !states[l + 1].sup.pc.Top?
    ensures TailAt(states, steps, i, l + 1)
  {
    RunKeepsShape(timeout, states, steps, l);
    TailStep(timeout, states[i].sup, ChosenError(states[i], steps[i].choice), ByContext(states[i], steps[i].choice),
             states[l], steps[l]);
    if states[l].sup.pc.AfterRunSuspended? && steps[l].Supervise? {
      LookDecides(timeout, states[l], steps[l].choice);
    }
  }

  ghost predicate TailAt(states: seq<State>, steps: seq<Step>, i: nat, l: nat)
    requires EndsTunnel(states, steps, i) && l < |states|
  {
    Tail(states[i].sup, ChosenError(states[i], steps[i].choice), ByContext(states[i], steps[i].choice), states[l])
  }

  lemma TailStarts(timeout: nat, states: seq<State>, steps: seq<Step>, i: nat)
    requires IsRun(timeout, states, steps) && EndsTunnel(states, steps, i)
    ensures i + 1 < |states| && TailAt(states, steps, i, i + 1)
  {
    RunKeepsShape(timeout, states, steps, i);
  }

  lemma {:induction false} TailUntil(timeout: nat, states: seq<State>, steps: seq<Step>, i: nat, l: nat)
    requires IsRun(timeout, states, steps) && EndsTunnel(states, steps, i) && i < l < |states|
    requires forall n :: i < n <= l ==> !states[n].sup.pc.Top?
    ensures TailAt(states, steps, i, l)
    decreases l
  {
    if i + 1 < l {
      TailUntil(timeout, states, steps, i, l - 1);
      TailNext(timeout, states, steps, i, l - 1);
    } else {
      TailStarts(timeout, states, steps, i);
    }
  }

  // ------------------------------------------------------------- main results

  /** What the supervisor carries back to the top after a tunnel of `u` ended with `err`: without a
      suspension it remembers the tunnel and charges the time from now on to the timeout; with one
      it starts a run of its own. Either way the web session has gone. */
  ghost predicate CarriedOn(timeout: nat, u: Sup, u': Sup, suspended: bool) {
    && u'.web.None? && u'.tries == 0 && u'.waited == 0
    && u'.log == u.log + (if suspended then [Down, Reset] else [Down])
    && u'.reconnect.backoff == INITIAL_BACKOFF
    && (u'.reconnect.established <==> !suspended) && (u'.reconnect.reconnecting <==> !suspended)
    && (!suspended ==> u'.reconnect.timeoutRemaining == timeout)
  }

  /** In every run in which the supervisor sees the end of a tunnel and goes back to the top of its
      loop: it saw the session's own error, which is not terminal unless a suspension excuses it,
      and looked for a suspension once in between; if the error was a suspension, whether or not
      the client has been resumed since, or the client is suspended at the look, a run of its own
      starts, and otherwise the tunnel counts as lost. */
  lemma TunnelEnd(timeout: nat, states: seq<State>, steps: seq<Step>, i: nat, j: nat) returns (look: nat)
    requires IsRun(timeout, states, steps) && EndsTunnel(states, steps, i) && BackAtTop(states, i, j)
    ensures i < look < j && states[look].sup.pc.AfterRunSuspended? && steps[look].Supervise?
    ensures var x := states[i].sup.pc.session;
            && x < |states[i].sessions| && states[i].sessions[x].failed
            && var err := states[i].sessions[x].error;
               var suspended := err.suspended || states[look].client.suspended;
               && (err.terminal ==> suspended)
               && CarriedOn(timeout, states[i].sup, states[j].sup, suspended)
  {
    look := j - 1;
    TailStarts(timeout, states, steps, i);
    TailUntil(timeout, states, steps, i, look);
    RunKeepsShape(timeout, states, steps, i);
    EndLook(timeout, states, steps, i, look);
    assert states[i].sup.log + [Down] + [Reset] == states[i].sup.log + [Down, Reset];
  }

  lemma EndLook(timeout: nat, states: seq<State>, steps: seq<Step>, i: nat, look: nat)
    requires IsRun(timeout, states, steps) && EndsTunnel(states, steps, i) && i < look < |steps|
    requires TailAt(states, steps, i, look) && states[look + 1].sup.pc.Top? && !states[look].sup.pc.Top?
    ensures states[look].sup.pc.AfterRunSuspended? && steps[look].Supervise?
    ensures !ByContext(states[i], steps[i].choice)
    ensures states[look].sup.pc.wasPublished && states[look].sup.pc.err == ChosenError(states[i], steps[i].choice)
    ensures states[look].sup.log == states[i].sup.log + [Down] && states[look].sup.reconnect == states[i].sup.reconnect
    ensures Looked(timeout, states[look].sup, states[look + 1].sup, true,
                   states[look].sup.pc.err.suspended || states[look].client.suspended)
  {
    var s := states[look];
    RunKeepsShape(timeout, states, steps, look);
    TailStep(timeout, states[i].sup, ChosenError(states[i], steps[i].choice), ByContext(states[i], steps[i].choice),
             s, steps[look]);
    if s.sup.pc.AfterRunSuspended? && steps[look].Supervise? {
      LookDecides(timeout, s, steps[look].choice);
    }
  }

  // --------------------------------------------------------- the next tunnel

  lemma StepExtendsLog(timeout: nat, s: State, step: Step)
    requires Enabled(s, step)
    ensures s.sup.log <= Apply(timeout, s, step).sup.log
  {
    if step.Supervise? {
      var k := step.choice;
      IdleMoves(s, k);
      SetupMoves(s, k);
      EndMoves(timeout, s, k);
      if !s.sup.pc.AnnounceUp? && !s.sup.pc.AnnounceDown? {
        RunMoves(s, k);
      }
      OneOfTheParts(timeout, s, k);
    } else {
      OthersLeaveSup(timeout, s, step);
    }
  }

  lemma {:induction false} RunExtendsLog(timeout: nat, states: seq<State>, steps: seq<Step>, i: nat, j: nat)
    requires IsRun(timeout, states, steps) && i <= j < |states|
    ensures states[i].sup.log <= states[j].sup.log
    decreases j
  {
    if i < j {
      RunExtendsLog(timeout, states, steps, i, j - 1);
      StepExtendsLog(timeout, states[j - 1], steps[j - 1]);
    }
  }

  /** The next up in the log behind the first n items. */
  ghost predicate NextUp(log: seq<Item>, n: nat, k: nat) {
    n <= k < |log| && log[k].Up? && forall l :: n <= l < k ==> !log[l].Up?
  }

  lemma AfterResetInitial(log: seq<Item>, n: nat, k: nat)
    requires 0 < n && NextUp(log, n, k) && log[n - 1] == Reset
    ensures !exists j: nat :: UpAt(log[..k], j)
  {
    forall j: nat ensures !UpAt(log[..k], j) {
      assert log[..k][n - 1] == Reset;
      assert j < k ==> log[..k][j] == log[j];
    }
  }

  lemma AfterDownAgain(log: seq<Item>, n: nat, k: nat, j: nat)
    requires 0 < n && NextUp(log, n, k) && log[n - 1] == Down && UpAt(log[..n - 1], j)
    ensures (exists l: nat :: UpAt(log[..k], l)) <==> forall l :: n <= l < k ==> !log[l].Reset?
  {
    assert log[..n - 1][j] == log[j];
    if forall l :: n <= l < k ==> !log[l].Reset? {
      forall l | j < l < k ensures !log[..k][l].Reset? {
        assert l < n - 1 ==> log[..n - 1][l] == log[l];
      }
      assert UpAt(log[..k], j);
    } else {
      var l :| n <= l < k && log[l].Reset?;
      forall m: nat ensures !UpAt(log[..k], m) {
        assert log[..k][l] == log[l];
        assert m < k ==> log[..k][m] == log[m];
      }
    }
  }

  /** How the next tunnel is announced: as a re-establishment if and only if no suspension ended
      the one before, was seen when the supervisor looked, or reset the log since. */
  lemma NextAnnouncement(timeout: nat, states: seq<State>, steps: seq<Step>, i: nat, j: nat, n: nat, k: nat)
    returns (look: nat)
    requires IsRun(timeout, states, steps) && EndsTunnel(states, steps, i) && BackAtTop(states, i, j)
    requires j <= n < |states| && NextUp(states[n].sup.log, |states[j].sup.log|, k)
    ensures i < look < j && states[look].sup.pc.AfterRunSuspended? && steps[look].Supervise?
    ensures states[i].sup.pc.session < |states[i].sessions|
    ensures states[n].sup.log[k].reestablished <==>
            && !states[i].sessions[states[i].sup.pc.session].error.suspended && !states[look].client.suspended
            && forall l :: |states[j].sup.log| <= l < k ==> !states[n].sup.log[l].Reset?
  {
    look := TunnelEnd(timeout, states, steps, i, j);
    RunExtendsLog(timeout, states, steps, j, n);
    EventsAlternate(timeout, states, steps, n);
    RunKeepsLogs(timeout, states, steps, i);
    var log, before := states[n].sup.log, states[i].sup.log;
    var m := |states[j].sup.log|;
    assert states[j].sup.log == log[..m];
    assert log[m - 1] == states[j].sup.log[m - 1];
    if states[j].sup.reconnect.established {
      UpSinceResetMeans(before);
      var up: nat :| UpAt(before, up);
      assert before == states[j].sup.log[..m - 1] == log[..m - 1];
      AfterDownAgain(log, m, k, up);
    } else {
      AfterResetInitial(log, m, k);
    }
  }

  // -------------------------------------------------- what makes an error a suspension

  /** The step is the first to fail session x, and it does so for a suspension: a Suspend call that
      saw it published, or the supervisor that published it on a suspended client. */
  ghost predicate SuspendsFirst(s: State, step: Step, x: nat) {
    && x < |s.sessions| && !s.sessions[x].failed
    && match step
       case FailSuspended(i) => i < |s.calls.owed| && s.calls.owed[i] == x
       case Supervise(_) => s.sup.pc == FailOwn(x)
       case _ => false
  }

  ghost predicate HasSuspension(sessions: seq<Session>, x: nat) {
    x < |sessions| && sessions[x].failed && sessions[x].error.suspended
  }

  lemma PartsSuspend(timeout: nat, s: State, k: Choice, x: nat)
    ensures HasSuspension(SuperviseIdle(s, k).sessions, x) ==> HasSuspension(s.sessions, x)
    ensures HasSuspension(SuperviseSetup(s, k).sessions, x) ==> HasSuspension(s.sessions, x)
    ensures HasSuspension(SuperviseEnd(timeout, s, k).sessions, x) ==> HasSuspension(s.sessions, x)
  {
    if !s.sup.pc.Connecting? {
      IdleSessionless(s, k);
    }
    if !s.sup.pc.SetTerminal? && !s.sup.pc.CloseState? {
      EndSessionless(timeout, s, k);
    }
    match s.sup.pc
    case Starting(_) =>
    case CloseRefused(_) =>
    case CloseUnpublished(_) =>
    case _ =>
  }

  lemma RunSuspends(s: State, k: Choice, x: nat)
    ensures HasSuspension(SuperviseRun(s, k).sessions, x) ==>
            HasSuspension(s.sessions, x) || SuspendsFirst(s, Supervise(k), x)
  {
    match s.sup.pc
    case FailOwn(_) =>
    case CloseEnded(_, _) =>
    case _ => assert SuperviseRun(s, k).sessions == s.sessions;
  }

  lemma StepSuspends(timeout: nat, s: State, step: Step, x: nat)
    requires Enabled(s, step) && HasSuspension(Apply(timeout, s, step).sessions, x)
    ensures HasSuspension(s.sessions, x) || SuspendsFirst(s, step, x)
  {
    match step
    case Supervise(k) =>
      PartsSuspend(timeout, s, k, x);
      RunSuspends(s, k, x);
      OneOfTheParts(timeout, s, k);
    case Dispatch(_) =>
    case Close =>
    case _ =>
  }

  lemma SuspendsFirstShows(timeout: nat, s: State, step: Step, x: nat)
    requires Enabled(s, step) && SuspendsFirst(s, step, x)
    ensures HasSuspension(Apply(timeout, s, step).sessions, x)
  {}

  /** Once failed, a session keeps its error. */
  lemma StepKeepsSuspension(timeout: nat, s: State, step: Step, x: nat)
    requires Shape(s) && Enabled(s, step) && HasSuspension(s.sessions, x)
    ensures HasSuspension(Apply(timeout, s, step).sessions, x)
  {
    StepGrowsSessions(timeout, s, step);
  }

  lemma StepGrowsSessions(timeout: nat, s: State, step: Step)
    requires Shape(s) && Enabled(s, step)
    ensures SessionsGrow(s.sessions, Apply(timeout, s, step).sessions)
  {
    if step.Supervise? {
      SuperviseGrowsSessions(timeout, s, step.choice);
    } else {
      OutsideStep(timeout, s, step);
    }
  }

  lemma SuperviseGrowsSessions(timeout: nat, s: State, k: Choice)
    requires Shape(s)
    ensures SessionsGrow(s.sessions, SuperviseStep(timeout, s, k).sessions)
  {
    LoopGrowsSessions(timeout, s, k);
    TunnelGrowsSessions(s, k);
    OneOfTheParts(timeout, s, k);
  }

  lemma LoopGrowsSessions(timeout: nat, s: State, k: Choice)
    ensures SessionsGrow(s.sessions, SuperviseIdle(s, k).sessions)
    ensures SessionsGrow(s.sessions, SuperviseEnd(timeout, s, k).sessions)
  {
    if !s.sup.pc.Connecting? {
      IdleSessionless(s, k);
    }
    if !s.sup.pc.SetTerminal? && !s.sup.pc.CloseState? {
      EndSessionless(timeout, s, k);
    }
  }

  lemma TunnelGrowsSessions(s: State, k: Choice)
    ensures SessionsGrow(s.sessions, SuperviseSetup(s, k).sessions)
    ensures SessionsGrow(s.sessions, SuperviseRun(s, k).sessions)
  {
    match s.sup.pc
    case Starting(_) =>
    case CloseRefused(x) => CloseWanes(s.sessions, x);
    case CloseUnpublished(x) => CloseWanes(s.sessions, x);
    case CloseEnded(x, _) => CloseWanes(s.sessions, x);
    case FailOwn(x) => FailWanes(s.sessions, x, SUSPENDED);
    case _ =>
      assert SuperviseSetup(s, k).sessions == s.sessions;
      assert SuperviseRun(s, k).sessions == s.sessions;
  }

  lemma {:induction false} SuspensionStays(
    timeout: nat, states: seq<State>, steps: seq<Step>, i: nat, j: nat, x: nat)
    requires IsRun(timeout, states, steps) && i <= j < |states| && HasSuspension(states[i].sessions, x)
    ensures HasSuspension(states[j].sessions, x)
    decreases j
  {
    if i < j {
      SuspensionStays(timeout, states, steps, i, j - 1, x);
      RunKeepsShape(timeout, states, steps, j - 1);
      StepKeepsSuspension(timeout, states[j - 1], steps[j - 1], x);
    }
  }

  lemma {:induction false} SuspensionCause(timeout: nat, states: seq<State>, steps: seq<Step>, i: nat, x: nat)
    returns (j: nat)
    requires IsRun(timeout, states, steps) && i < |states| && HasSuspension(states[i].sessions, x)
    ensures j < i && SuspendsFirst(states[j], steps[j], x)
  {
    j := i - 1;
    StepSuspends(timeout, states[j], steps[j], x);
    if HasSuspension(states[j].sessions, x) {
      j := SuspensionCause(timeout, states, steps, j, x);
    }
  }

  /** A session has failed with a suspension if and only if a suspension was the first to fail it. */
  lemma SuspensionIff(timeout: nat, states: seq<State>, steps: seq<Step>, i: nat, x: nat)
    requires IsRun(timeout, states, steps) && i < |states|
    ensures HasSuspension(states[i].sessions, x) <==>
            exists j :: 0 <= j < i && SuspendsFirst(states[j], steps[j], x)
  {
    if HasSuspension(states[i].sessions, x) {
      var j := SuspensionCause(timeout, states, steps, i, x);
    }
    forall j | 0 <= j < i && SuspendsFirst(states[j], steps[j], x) ensures HasSuspension(states[i].sessions, x) {
      SuspendsFirstShows(timeout, states[j], steps[j], x);
      SuspensionStays(timeout, states, steps, j + 1, i, x);
    }
  }
}
