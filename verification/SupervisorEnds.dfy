/** How the supervisor ends: for what reasons, what it leaves behind, and that it does end once it
    is cancelled (client_supervisor.go:80-172 and 286-348, client.go:380-410). */
module SupervisorEnds {
  import opened Lifecycle
  import opened Reconnect
  import opened Supervisor
  import opened SupervisorSessions
  import opened SupervisorReady
  import opened SupervisorBudget

  // --------------------------------------------------------- reasons to end

  /** What sends the supervisor on its way out. */
  predicate ReasonToEnd(s: State, k: Choice) {
    match s.sup.pc
    case Top => s.done || s.client.closed
    case AfterRun(_, _) => s.done || s.client.closed
    case BlockedOnResume(_) => k.context && s.done
    case Timing(_) => k.context && s.done
    case AuthFailed(terminal) => terminal || s.done || s.client.closed
    case AfterRunSuspended(_, err) => err.terminal && !err.suspended && !s.client.suspended
    case BackingOff => OutOfBudget(s.sup.reconnect)
    case _ => false
  }

  lemma IdleEndsFor(s: State, k: Choice)
    requires !Gone(s.sup.pc)
    ensures Gone(SuperviseIdle(s, k).sup.pc) <==>
            ReasonToEnd(s, k) && (s.sup.pc.Top? || s.sup.pc.BlockedOnResume? || s.sup.pc.AuthFailed?)
  {
    match s.sup.pc
    case Top =>
    case TestSuspended =>
    case WaitResumed =>
    case BlockedOnResume(_) =>
    case Authenticating =>
    case AuthFailed(_) =>
    case TestSuspendedAuth =>
    case Connecting =>
    case _ => assert SuperviseIdle(s, k) == s;
  }

  lemma EndEndsFor(timeout: nat, s: State, k: Choice)
    requires !Gone(s.sup.pc)
    ensures Gone(SuperviseEnd(timeout, s, k).sup.pc) <==>
            ReasonToEnd(s, k) &&
            (s.sup.pc.AfterRun? || s.sup.pc.AfterRunSuspended? || s.sup.pc.BackingOff? || s.sup.pc.Timing?)
  {
    match s.sup.pc
    case AfterRun(_, _) =>
    case AfterRunSuspended(_, _) =>
    case BackingOff =>
    case Timing(_) =>
    case _ =>
  }

  /** The supervisor leaves its loop exactly when it sees the context done or the client closed, a
      terminal authentication error, a terminal tunnel error without a suspension, or a used up
      reconnect budget. */
  lemma EndsExactlyFor(timeout: nat, s: State, k: Choice)
    requires !Gone(s.sup.pc)
    ensures Gone(SuperviseStep(timeout, s, k).sup.pc) <==> ReasonToEnd(s, k)
  {
    IdleEndsFor(s, k);
    EndEndsFor(timeout, s, k);
    SetupOnlyMoves(s, k);
    RunOnlyMoves(s, k);
    PartOf(timeout, s, k);
  }

  lemma PartOf(timeout: nat, s: State, k: Choice)
    ensures s.sup.pc.Top? || s.sup.pc.BlockedOnResume? || s.sup.pc.AuthFailed? ==>
              SuperviseStep(timeout, s, k) == SuperviseIdle(s, k)
    ensures s.sup.pc.AfterRun? || s.sup.pc.AfterRunSuspended? || s.sup.pc.BackingOff? || s.sup.pc.Timing? ==>
              SuperviseStep(timeout, s, k) == SuperviseEnd(timeout, s, k)
    ensures SuperviseStep(timeout, s, k) in
      {SuperviseIdle(s, k), SuperviseSetup(s, k), SuperviseRun(s, k), SuperviseEnd(timeout, s, k)}
  {}

  /** A failed authentication carries the verdict of the attempt. */
  ghost predicate AuthVerdict(s: State, step: Step, terminal: bool) {
    s.sup.pc.Authenticating? && step.Supervise? && !step.choice.succeed && step.choice.terminal == terminal
  }

  lemma IdleVerdict(s: State, k: Choice)
    requires SuperviseIdle(s, k).sup.pc.AuthFailed? && !s.sup.pc.AuthFailed?
    ensures AuthVerdict(s, Supervise(k), SuperviseIdle(s, k).sup.pc.terminal)
  {
    match s.sup.pc
    case Top =>
    case TestSuspended =>
    case WaitResumed =>
    case BlockedOnResume(_) =>
    case Authenticating =>
    case TestSuspendedAuth =>
    case Connecting =>
    case _ =>
  }

  lemma AuthFailedOnlyThere(timeout: nat, s: State, k: Choice)
    requires SuperviseStep(timeout, s, k).sup.pc.AuthFailed?
    ensures !s.sup.pc.AuthFailed? && SuperviseStep(timeout, s, k) == SuperviseIdle(s, k)
  {
    SetupOnlyMoves(s, k);
    RunOnlyMoves(s, k);
    EndNeverFailsAuth(timeout, s, k);
    OneOfTheParts(timeout, s, k);
    if !s.sup.pc.Finished? {
      Moves(timeout, s, k);
    }
    if s.sup.pc.AuthFailed? {
      IdleNears(s.(done := true), k);
    }
  }

  lemma EndNeverFailsAuth(timeout: nat, s: State, k: Choice)
    ensures SuperviseEnd(timeout, s, k).sup.pc.AuthFailed? ==> SuperviseEnd(timeout, s, k) == s
  {
    match s.sup.pc
    case AfterRun(_, _) =>
    case AfterRunSuspended(_, _) =>
    case BackingOff =>
    case Timing(_) =>
    case SetTerminal(_) =>
    case CancelSelf =>
    case ReleaseWeb =>
    case CloseState =>
    case _ => assert SuperviseEnd(timeout, s, k) == s;
  }

  lemma {:induction false} AuthFailedFor(timeout: nat, states: seq<State>, steps: seq<Step>, i: nat) returns (j: nat)
    requires IsRun(timeout, states, steps) && i < |states| && states[i].sup.pc.AuthFailed?
    ensures j < i && AuthVerdict(states[j], steps[j], states[i].sup.pc.terminal)
  {
    j := i - 1;
    if steps[j].Supervise? {
      AuthFailedOnlyThere(timeout, states[j], steps[j].choice);
      IdleVerdict(states[j], steps[j].choice);
    } else {
      OthersLeaveSup(timeout, states[j], steps[j]);
      j := AuthFailedFor(timeout, states, steps, j);
    }
  }

  /** The supervisor reacts to a tunnel that was never published, with this error. */
  predicate Unpublished(pc: Pc, err: Error) {
    match pc
    case AfterRun(published, e) => !published && e == err
    case AfterRunSuspended(published, e) => !published && e == err
    case _ => false
  }

  /** The step is a tunnel attempt that came to nothing: a connection that failed, with its verdict,
      or a session that was refused or could not be published. */
  ghost predicate TunnelVerdict(s: State, step: Step, err: Error) {
    step.Supervise? &&
    match s.sup.pc
    case Connecting => !step.choice.succeed && err == Error(false, step.choice.terminal)
    case CloseRefused(_) => err == Error(false, false)
    case CloseUnpublished(_) => err == Error(false, false)
    case _ => false
  }

  lemma EntersUnpublished(timeout: nat, s: State, k: Choice, err: Error)
    requires Unpublished(SuperviseStep(timeout, s, k).sup.pc, err)
    ensures Unpublished(s.sup.pc, err) || TunnelVerdict(s, Supervise(k), err)
  {
    IdleUnpublished(s, k, err);
    SetupUnpublished(s, k, err);
    RunUnpublished(s, k, err);
    EndUnpublished(timeout, s, k, err);
    OneOfTheParts(timeout, s, k);
  }

  lemma IdleUnpublished(s: State, k: Choice, err: Error)
    ensures Unpublished(SuperviseIdle(s, k).sup.pc, err) ==>
              Unpublished(s.sup.pc, err) || TunnelVerdict(s, Supervise(k), err)
  {
    match s.sup.pc
    case Top =>
    case TestSuspended =>
    case WaitResumed =>
    case BlockedOnResume(_) =>
    case Authenticating =>
    case AuthFailed(_) =>
    case TestSuspendedAuth =>
    case Connecting =>
    case _ =>
  }

  lemma SetupUnpublished(s: State, k: Choice, err: Error)
    ensures Unpublished(SuperviseSetup(s, k).sup.pc, err) ==>
              Unpublished(s.sup.pc, err) || TunnelVerdict(s, Supervise(k), err)
  {
    match s.sup.pc
    case SetCurrent(_) =>
    case CloseRefused(_) =>
    case Starting(_) =>
    case Publishing(_) =>
    case ClearUnpublished(_) =>
    case CloseUnpublished(_) =>
    case _ =>
  }

  lemma RunUnpublished(s: State, k: Choice, err: Error)
    ensures Unpublished(SuperviseRun(s, k).sup.pc, err) ==> Unpublished(s.sup.pc, err)
  {
    match s.sup.pc
    case AnnounceUp(_) =>
    case WakeUp(_) =>
    case TestSuspendedRun(_) =>
    case FailOwn(_) =>
    case WaitingDone(_) =>
    case CloseEnded(_, _) =>
    case ClearEnded(_, _) =>
    case AnnounceDown(_) =>
    case WakeDown(_) =>
    case _ =>
  }

  lemma EndUnpublished(timeout: nat, s: State, k: Choice, err: Error)
    ensures Unpublished(SuperviseEnd(timeout, s, k).sup.pc, err) ==> Unpublished(s.sup.pc, err)
  {
    match s.sup.pc
    case AfterRun(_, _) =>
    case AfterRunSuspended(_, _) =>
    case BackingOff =>
    case Timing(_) =>
    case SetTerminal(_) =>
    case CancelSelf =>
    case ReleaseWeb =>
    case CloseState =>
    case _ =>
  }

  /** The error acted on after a tunnel that was never published is that of the attempt. */
  lemma {:induction false} UnpublishedFor(
    timeout: nat, states: seq<State>, steps: seq<Step>, i: nat, err: Error) returns (j: nat)
    requires IsRun(timeout, states, steps) && i < |states| && Unpublished(states[i].sup.pc, err)
    ensures j < i && TunnelVerdict(states[j], steps[j], err)
  {
    j := i - 1;
    if steps[j].Supervise? {
      EntersUnpublished(timeout, states[j], steps[j].choice, err);
    } else {
      OthersLeaveSup(timeout, states[j], steps[j]);
    }
    if Unpublished(states[j].sup.pc, err) {
      j := UnpublishedFor(timeout, states, steps, j, err);
    }
  }

  // ------------------------------------------------------- what it leaves behind

  predicate Decided(c: Client) {
    c.closed || c.terminalError.Some?
  }

  /** A finished supervisor leaves the client closed or failed; and a client that is closed without
      a call of Close was closed by a supervisor that finished without a terminal error. */
  ghost predicate EndsDecided(s: State) {
    && (s.sup.pc.Finished? ==> Decided(s.client))
    && (s.client.closed && s.calls.closer.NotClosing? ==> s.sup.pc.Finished? && s.client.terminalError.None?)
  }

  lemma PartsLeaveClosed(s: State, k: Choice)
    ensures SuperviseIdle(s, k).client.closed == s.client.closed
    ensures SuperviseSetup(s, k).client.closed == s.client.closed
    ensures SuperviseRun(s, k).client.closed == s.client.closed
    ensures SuperviseIdle(s, k).sup.pc.Finished? ==> s.sup.pc.Finished? && SuperviseIdle(s, k) == s
    ensures SuperviseSetup(s, k).sup.pc.Finished? ==> s.sup.pc.Finished? && SuperviseSetup(s, k) == s
    ensures SuperviseRun(s, k).sup.pc.Finished? ==> s.sup.pc.Finished? && SuperviseRun(s, k) == s
  {
    SetupOnlyMoves(s, k);
    RunOnlyMoves(s, k);
    if !s.sup.pc.Connecting? {
      IdleSessionless(s, k);
    }
    IdleNeverFinishes(s, k);
  }

  lemma IdleNeverFinishes(s: State, k: Choice)
    ensures SuperviseIdle(s, k).sup.pc.Finished? ==> SuperviseIdle(s, k) == s
  {
    match s.sup.pc
    case Top =>
    case TestSuspended =>
    case WaitResumed =>
    case BlockedOnResume(_) =>
    case Authenticating =>
    case AuthFailed(_) =>
    case TestSuspendedAuth =>
    case Connecting =>
    case _ => assert SuperviseIdle(s, k) == s;
  }

  lemma EndLeavesDecided(timeout: nat, s: State, k: Choice)
    requires EndsDecided(s)
    ensures EndsDecided(SuperviseEnd(timeout, s, k))
  {
    match s.sup.pc
    case AfterRun(_, _) =>
    case AfterRunSuspended(_, _) =>
    case BackingOff =>
    case Timing(_) =>
    case SetTerminal(_) =>
    case CancelSelf =>
    case ReleaseWeb =>
    case CloseState =>
    case _ => assert SuperviseEnd(timeout, s, k) == s;
  }

  lemma PartsLeaveDecided(s: State, k: Choice)
    requires EndsDecided(s) && !s.sup.pc.Finished?
    ensures EndsDecided(SuperviseIdle(s, k)) && EndsDecided(SuperviseSetup(s, k)) && EndsDecided(SuperviseRun(s, k))
  {
    PartsLeaveClosed(s, k);
    PartsLeaveCalls(s, k);
  }

  lemma PartsLeaveCalls(s: State, k: Choice)
    ensures SuperviseIdle(s, k).calls == s.calls && SuperviseSetup(s, k).calls == s.calls
    ensures SuperviseRun(s, k).calls == s.calls
  {}

  lemma OutsideLeavesDecided(timeout: nat, s: State, step: Step)
    requires EndsDecided(s) && Enabled(s, step) && !step.Supervise?
    ensures EndsDecided(Apply(timeout, s, step))
  {
    OthersLeaveSup(timeout, s, step);
    match step
    case Dispatch(_) =>
    case Close =>
    case _ =>
  }

  lemma StepLeavesDecided(timeout: nat, s: State, step: Step)
    requires EndsDecided(s) && Enabled(s, step)
    ensures EndsDecided(Apply(timeout, s, step))
  {
    if step.Supervise? {
      PartsLeaveDecided(s, step.choice);
      EndLeavesDecided(timeout, s, step.choice);
      OneOfTheParts(timeout, s, step.choice);
    } else {
      OutsideLeavesDecided(timeout, s, step);
    }
  }

  lemma {:induction false} FinishedDecided(timeout: nat, states: seq<State>, steps: seq<Step>, i: nat)
    requires IsRun(timeout, states, steps) && i < |states|
    ensures EndsDecided(states[i])
  {
    if i != 0 {
      FinishedDecided(timeout, states, steps, i - 1);
      StepLeavesDecided(timeout, states[i - 1], steps[i - 1]);
    }
  }

  /** A terminal error of the supervisor becomes the client's, unless the client is closed or has
      one already, and cancels the context. */
  lemma TerminalRecorded(timeout: nat, s: State, k: Choice)
    requires s.sup.pc.SetTerminal?
    ensures var s' := SuperviseStep(timeout, s, k);
            && (if s.client.closed || s.client.terminalError.Some? then s'.client == s.client
                else s'.client.terminalError == Some(s.sup.pc.err) && s'.client.generation > s.client.generation)
            && (!s.client.closed ==> s'.sup.pc.CancelSelf? && SuperviseStep(timeout, s', k).done)
  {}

  // ------------------------------------------------------------ publication

  lemma SetupPublishes(s: State, k: Choice)
    ensures var c, c' := s.client, SuperviseSetup(s, k).client;
            c'.publishedSession == c.publishedSession || c'.publishedSession.None? ||
            (&& !c.closed && c.terminalError.None? && !s.done && c'.publishedSession == c.currentSession
             && s.sup.pc == Publishing(c'.publishedSession.value) && CurrentReady(s))
  {
    match s.sup.pc
    case SetCurrent(_) =>
    case Publishing(_) =>
    case ClearUnpublished(_) =>
    case _ => assert SuperviseSetup(s, k).client == s.client;
  }

  /** In every run a session that becomes published is the current one, was ready at that moment,
      and the client was then neither closed nor failed nor cancelled. */
  lemma PublishesReady(timeout: nat, states: seq<State>, steps: seq<Step>, i: nat)
    requires IsRun(timeout, states, steps) && i < |steps|
    requires states[i + 1].client.publishedSession.Some?
    requires states[i + 1].client.publishedSession != states[i].client.publishedSession
    ensures var s, x := states[i], states[i + 1].client.publishedSession.value;
            && s.client.currentSession == Some(x) && x < |s.sessions| && s.sessions[x].ready
            && !s.client.closed && s.client.terminalError.None? && !s.done
  {
    var s := states[i];
    RunKeepsShape(timeout, states, steps, i);
    if steps[i].Supervise? {
      SetupPublishes(s, steps[i].choice);
      RunPublishesNothing(timeout, s, steps[i].choice);
      OneOfTheParts(timeout, s, steps[i].choice);
    } else {
      OutsideStep(timeout, s, steps[i]);
    }
  }

  lemma RunPublishesNothing(timeout: nat, s: State, k: Choice)
    ensures SuperviseIdle(s, k).client.publishedSession == s.client.publishedSession
    ensures SuperviseRun(s, k).client.publishedSession in {None, s.client.publishedSession}
    ensures SuperviseEnd(timeout, s, k).client.publishedSession in {None, s.client.publishedSession}
  {
    if !s.sup.pc.Connecting? {
      IdleSessionless(s, k);
    }
    if !s.sup.pc.SetTerminal? && !s.sup.pc.CloseState? {
      EndSessionless(timeout, s, k);
    }
    match s.sup.pc
    case ClearEnded(_, _) =>
    case _ => assert SuperviseRun(s, k).client == s.client;
  }

  /** What WaitReady tells a caller, from the supervisor's place: ready exactly while an announced
      tunnel runs on a session that is ready; the terminal error before anything else. */
  lemma ReadyAnswers(timeout: nat, states: seq<State>, steps: seq<Step>, i: nat)
    requires IsRun(timeout, states, steps) && i < |states|
    ensures var s := states[i];
            var answer := WaitReadyTurn(s.client, CurrentReady(s));
            && (s.client.terminalError.Some? <==> answer.Terminal?)
            && (answer.Terminal? ==> Some(answer.err) == s.client.terminalError)
            && (answer.ClosedClient? <==> s.client.terminalError.None? && s.client.closed)
            && (answer.ReadyNow? <==>
                  && s.client.terminalError.None? && !s.client.closed
                  && Published(s.sup.pc).Some? && Published(s.sup.pc).value < |s.sessions|
                  && s.sessions[Published(s.sup.pc).value].ready)
            && (answer.BlockOn? ==> answer.generation == s.client.generation)
            && (ReadySession(s.client, CurrentReady(s)).Some? <==> answer.ReadyNow?)
  {
    RunKeepsShape(timeout, states, steps, i);
  }

  // ------------------------------------------------------------ termination

  /** How many steps of its own a cancelled supervisor has left at most. */
  function Left(pc: Pc): nat {
    match pc
    case Finished => 0
    case CloseState => 1
    case ReleaseWeb => 2
    case CancelSelf => 3
    case Top => 3
    case SetTerminal(_) => 4
    case Timing(_) => 4
    case BackingOff => 5
    case AfterRunSuspended(_, _) => 6
    case AuthFailed(_) => 6
    case AfterRun(_, _) => 7
    case WakeDown(_) => 8
    case CloseRefused(_) => 8
    case CloseUnpublished(_) => 8
    case AnnounceDown(_) => 9
    case ClearUnpublished(_) => 9
    case ClearEnded(_, _) => 10
    case CloseEnded(_, _) => 11
    case WaitingDone(_) => 12
    case FailOwn(_) => 13
    case TestSuspendedRun(_) => 14
    case WakeUp(_) => 15
    case AnnounceUp(_) => 16
    case Publishing(_) => 17
    case Starting(_) => 18
    case SetCurrent(_) => 19
    case Connecting => 20
    case TestSuspendedAuth => 21
    case Authenticating => 22
    case BlockedOnResume(_) => 23
    case WaitResumed => 24
    case TestSuspended => 25
  }

  lemma IdleNears(s: State, k: Choice)
    requires s.done
    ensures SuperviseIdle(s, k) == s || Left(SuperviseIdle(s, k).sup.pc) < Left(s.sup.pc)
  {
    match s.sup.pc
    case Top =>
    case TestSuspended =>
    case WaitResumed =>
    case BlockedOnResume(_) =>
    case Authenticating =>
    case AuthFailed(_) =>
    case TestSuspendedAuth =>
    case Connecting =>
    case _ => assert SuperviseIdle(s, k) == s;
  }

  lemma SetupNears(s: State, k: Choice)
    ensures SuperviseSetup(s, k) == s || Left(SuperviseSetup(s, k).sup.pc) < Left(s.sup.pc)
  {
    match s.sup.pc
    case SetCurrent(_) =>
    case CloseRefused(_) =>
    case Starting(_) =>
    case Publishing(_) =>
    case ClearUnpublished(_) =>
    case CloseUnpublished(_) =>
    case _ => assert SuperviseSetup(s, k) == s;
  }

  lemma RunNears(s: State, k: Choice)
    ensures SuperviseRun(s, k) == s || Left(SuperviseRun(s, k).sup.pc) < Left(s.sup.pc)
  {
    match s.sup.pc
    case AnnounceUp(_) =>
    case WakeUp(_) =>
    case TestSuspendedRun(_) =>
    case FailOwn(_) =>
    case WaitingDone(_) =>
    case CloseEnded(_, _) =>
    case ClearEnded(_, _) =>
    case AnnounceDown(_) =>
    case WakeDown(_) =>
    case _ => assert SuperviseRun(s, k) == s;
  }

  lemma EndNears(timeout: nat, s: State, k: Choice)
    ensures SuperviseEnd(timeout, s, k) == s || Left(SuperviseEnd(timeout, s, k).sup.pc) < Left(s.sup.pc)
  {
    match s.sup.pc
    case AfterRun(_, _) =>
    case AfterRunSuspended(_, _) =>
    case BackingOff =>
    case Timing(_) =>
    case SetTerminal(_) =>
    case CancelSelf =>
    case ReleaseWeb =>
    case CloseState =>
    case _ => assert SuperviseEnd(timeout, s, k) == s;
  }

  lemma Moves(timeout: nat, s: State, k: Choice)
    requires !s.sup.pc.Finished?
    ensures SuperviseStep(timeout, s, k).sup.pc != s.sup.pc
  {}

  lemma SuperviseNears(timeout: nat, s: State, k: Choice)
    requires s.done && !s.sup.pc.Finished?
    ensures Left(SuperviseStep(timeout, s, k).sup.pc) < Left(s.sup.pc)
  {
    IdleNears(s, k);
    SetupNears(s, k);
    RunNears(s, k);
    EndNears(timeout, s, k);
    OneOfTheParts(timeout, s, k);
    Moves(timeout, s, k);
  }

  /** The supervisor's steps among those from i up to j. */
  function Turns(steps: seq<Step>, i: nat, j: nat): nat
    requires i <= j <= |steps|
  {
    if i == j then 0 else Turns(steps, i, j - 1) + if steps[j - 1].Supervise? then 1 else 0
  }

  lemma DoneStays(timeout: nat, s: State, step: Step)
    requires Shape(s) && s.done && Enabled(s, step)
    ensures Apply(timeout, s, step).done
  {
    if step.Supervise? {
      SuperviseKeepsDone(timeout, s, step.choice);
    } else {
      OutsideStep(timeout, s, step);
    }
  }

  lemma SuperviseKeepsDone(timeout: nat, s: State, k: Choice)
    requires s.done
    ensures SuperviseStep(timeout, s, k).done
  {}

  lemma StepNears(timeout: nat, s: State, step: Step)
    requires Shape(s) && s.done && Enabled(s, step)
    ensures var s' := Apply(timeout, s, step);
            s'.done && Left(s'.sup.pc) + (if step.Supervise? then 1 else 0) <= Left(s.sup.pc)
  {
    DoneStays(timeout, s, step);
    if step.Supervise? {
      SuperviseNears(timeout, s, step.choice);
    } else {
      OthersLeaveSup(timeout, s, step);
    }
  }

  lemma NeverBlocked(s: State)
    ensures Left(s.sup.pc) <= 25
    ensures s.done ==> s.sup.pc.Finished? || Unblocked(s, Choice(true, false, true))
  {}

  /** Every step the supervisor took brought it nearer to its end. */
  ghost predicate Nearer(states: seq<State>, steps: seq<Step>, i: nat, j: nat)
    requires i <= j <= |steps| && j < |states|
  {
    states[j].done && Turns(steps, i, j) + Left(states[j].sup.pc) <= Left(states[i].sup.pc)
  }

  lemma NearerNext(timeout: nat, states: seq<State>, steps: seq<Step>, i: nat, j: nat)
    requires IsRun(timeout, states, steps) && i <= j < |steps| && Nearer(states, steps, i, j)
    ensures Nearer(states, steps, i, j + 1)
  {
    RunKeepsShape(timeout, states, steps, j);
    StepNears(timeout, states[j], steps[j]);
  }

  lemma {:induction false} RunNearer(timeout: nat, states: seq<State>, steps: seq<Step>, i: nat, j: nat)
    requires IsRun(timeout, states, steps) && i <= j < |states| && states[i].done
    ensures Nearer(states, steps, i, j)
    decreases j
  {
    if i < j {
      RunNearer(timeout, states, steps, i, j - 1);
      NearerNext(timeout, states, steps, i, j - 1);
    }
  }

  /** Once the context is cancelled the supervisor is never blocked, and has finished after at most
      25 further steps of its own, whatever the others do in between. */
  lemma CancelledFinishes(timeout: nat, states: seq<State>, steps: seq<Step>, i: nat, j: nat)
    requires IsRun(timeout, states, steps) && i <= j < |states| && states[i].done
    ensures states[j].done && Turns(steps, i, j) + Left(states[j].sup.pc) <= Left(states[i].sup.pc) <= 25
    ensures states[j].sup.pc.Finished? || Unblocked(states[j], Choice(true, false, true))
  {
    RunNearer(timeout, states, steps, i, j);
    NeverBlocked(states[i]);
    NeverBlocked(states[j]);
  }

  /** A call of Close has closed and cancelled the client; unless it has returned it can go on, or
      waits for a supervisor that can. */
  ghost predicate CloseGoesOn(s: State) {
    !s.calls.closer.NotClosing? ==>
      && s.done && s.client.closed
      && (s.calls.closer.ClosedAll? || Enabled(s, Close) || Enabled(s, Supervise(Choice(true, false, true))))
  }

  lemma StepCloseGoesOn(timeout: nat, s: State, step: Step)
    requires Shape(s) && CloseGoesOn(s) && Enabled(s, step)
    ensures CloseGoesOn(Apply(timeout, s, step))
  {
    StepSection(timeout, s, step);
    if s.done {
      DoneStays(timeout, s, step);
    }
    if step.Supervise? {
      SuperviseLeavesCalls(timeout, s, step.choice);
    }
  }

  /** In every run a call of Close that has begun can always go on until it has returned. */
  lemma {:induction false} CloseReturns(timeout: nat, states: seq<State>, steps: seq<Step>, i: nat)
    requires IsRun(timeout, states, steps) && i < |states|
    ensures CloseGoesOn(states[i])
  {
    if i != 0 {
      CloseReturns(timeout, states, steps, i - 1);
      RunKeepsShape(timeout, states, steps, i - 1);
      StepCloseGoesOn(timeout, states[i - 1], steps[i - 1]);
    }
  }
}
