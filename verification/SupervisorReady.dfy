/** What every run keeps about readiness, terminal errors and the budget of reconnects. */
module SupervisorReady {
  import opened Lifecycle
  import opened Supervisor
  import opened SupervisorSessions

  // --------------------------------------------------- blocked WaitReady

  ghost predicate Unready(s: State) {
    s.client.terminalError.None? && !s.client.closed && !IsReady(s.client, CurrentReady(s))
  }

  /** A caller blocked on the current `stateChanged` channel has nothing to report yet. */
  ghost predicate WaitersSafe(s: State) {
    forall i :: 0 <= i < |s.calls.waiters| ==>
      s.calls.waiters[i] <= s.client.generation && (s.calls.waiters[i] == s.client.generation ==> Unready(s))
  }

  /** A step either signals or leaves a client that has nothing to report in that condition. */
  ghost predicate SignalsOrQuiet(s: State, s': State) {
    || s.client.generation < s'.client.generation
    || (s.client.generation == s'.client.generation && (Unready(s) ==> Unready(s')))
  }

  lemma WanedStaysUnready(s: State, s': State)
    requires SessionsWane(s.sessions, s'.sessions) && s'.client.generation == s.client.generation
    requires s'.client.currentSession == s.client.currentSession
    requires s'.client.publishedSession == s.client.publishedSession
    requires s'.client.terminalError == s.client.terminalError && s'.client.closed == s.client.closed
    ensures SignalsOrQuiet(s, s')
  {}

  lemma OutsideSignals(timeout: nat, s: State, step: Step)
    requires WellFormed(s.client) && Enabled(s, step) && !step.Supervise?
    ensures SignalsOrQuiet(s, Apply(timeout, s, step))
  {
    OutsideStep(timeout, s, step);
    var s' := Apply(timeout, s, step);
    if s'.client.generation == s.client.generation {
      assert s'.client.terminalError == s.client.terminalError && s'.client.closed == s.client.closed;
      WanedStaysUnready(s, s');
    }
  }

  lemma IdleSignals(s: State, k: Choice)
    requires Shape(s)
    ensures SignalsOrQuiet(s, SuperviseIdle(s, k))
  {
    if !s.sup.pc.Connecting? {
      IdleSessionless(s, k);
    }
  }

  lemma SetupSignals(s: State, k: Choice)
    requires Shape(s)
    ensures SignalsOrQuiet(s, SuperviseSetup(s, k))
  {
    match s.sup.pc
    case CloseRefused(x) => CloseWanes(s.sessions, x);
    case CloseUnpublished(x) => CloseWanes(s.sessions, x);
    case _ =>
  }

  lemma RunSignals(s: State, k: Choice)
    requires Shape(s)
    ensures SignalsOrQuiet(s, SuperviseRun(s, k))
  {
    match s.sup.pc
    case FailOwn(x) => FailWanes(s.sessions, x, SUSPENDED);
    case CloseEnded(x, _) => CloseWanes(s.sessions, x);
    case _ =>
  }

  lemma EndSignals(timeout: nat, s: State, k: Choice)
    requires Shape(s)
    ensures SignalsOrQuiet(s, SuperviseEnd(timeout, s, k))
  {
    if !s.sup.pc.SetTerminal? && !s.sup.pc.CloseState? {
      EndSessionless(timeout, s, k);
    }
  }

  lemma StepSignals(timeout: nat, s: State, step: Step)
    requires Shape(s) && Enabled(s, step)
    ensures SignalsOrQuiet(s, Apply(timeout, s, step))
  {
    if step.Supervise? {
      var k := step.choice;
      IdleSignals(s, k);
      SetupSignals(s, k);
      RunSignals(s, k);
      EndSignals(timeout, s, k);
      OneOfTheParts(timeout, s, k);
    } else {
      OutsideSignals(timeout, s, step);
    }
  }

  /** The waiters of the next state are old ones, or a caller that has just seen nothing. */
  lemma WaitersOf(timeout: nat, s: State, step: Step, i: nat)
    requires Enabled(s, step) && i < |Apply(timeout, s, step).calls.waiters|
    ensures var w := Apply(timeout, s, step).calls.waiters[i];
            w in s.calls.waiters || (step.CallWaitReady? && w == s.client.generation && Unready(s))
  {
    if step.Supervise? {
      SuperviseLeavesCalls(timeout, s, step.choice);
    }
  }

  lemma StepKeepsWaiters(timeout: nat, s: State, step: Step)
    requires Shape(s) && WaitersSafe(s) && Enabled(s, step)
    ensures WaitersSafe(Apply(timeout, s, step))
  {
    var s' := Apply(timeout, s, step);
    StepSignals(timeout, s, step);
    forall i | 0 <= i < |s'.calls.waiters|
      ensures s'.calls.waiters[i] <= s'.client.generation
      ensures s'.calls.waiters[i] == s'.client.generation ==> Unready(s')
    {
      WaitersOf(timeout, s, step, i);
      if s'.calls.waiters[i] in s.calls.waiters {
        var k :| 0 <= k < |s.calls.waiters| && s.calls.waiters[k] == s'.calls.waiters[i];
      }
    }
  }

  /** In every run, a WaitReady caller blocked on the current channel has no terminal error, no
      closed client and no ready session to report. */
  lemma {:induction false} NoMissedReadiness(timeout: nat, states: seq<State>, steps: seq<Step>, i: nat)
    requires IsRun(timeout, states, steps) && i < |states|
    ensures WaitersSafe(states[i])
  {
    if i != 0 {
      NoMissedReadiness(timeout, states, steps, i - 1);
      RunKeepsShape(timeout, states, steps, i - 1);
      StepKeepsWaiters(timeout, states[i - 1], steps[i - 1]);
    }
  }

  // -------------------------------------------- closed and terminal for good

  lemma SectionOfNothing(c: Client)
    requires WellFormed(c)
    ensures Section(c, c)
  {}

  lemma SetupSection(s: State, k: Choice)
    requires WellFormed(s.client)
    ensures Section(s.client, SuperviseSetup(s, k).client)
  {
    SectionOfNothing(s.client);
    match s.sup.pc
    case SetCurrent(x) => SetCurrentSection(s.client, s.done, x);
    case CloseRefused(_) =>
    case Starting(_) =>
    case Publishing(x) => PublishSection(s.client, s.done, x, x < |s.sessions| && s.sessions[x].ready);
    case ClearUnpublished(x) => ClearSection(s.client, x);
    case CloseUnpublished(_) =>
    case _ => assert SuperviseSetup(s, k) == s;
  }

  lemma RunSection(s: State, k: Choice)
    requires WellFormed(s.client)
    ensures Section(s.client, SuperviseRun(s, k).client)
  {
    match s.sup.pc
    case ClearEnded(x, _) => ClearSection(s.client, x);
    case _ => SectionOfNothing(s.client);
  }

  lemma EndSection(timeout: nat, s: State, k: Choice)
    requires WellFormed(s.client)
    ensures Section(s.client, SuperviseEnd(timeout, s, k).client)
  {
    match s.sup.pc
    case SetTerminal(err) => TerminalSection(s.client, err);
    case CloseState => CloseSections(s.client);
    case _ =>
      EndSessionless(timeout, s, k);
      SectionOfNothing(s.client);
  }

  lemma IdleSection(s: State, k: Choice)
    requires WellFormed(s.client)
    ensures Section(s.client, SuperviseIdle(s, k).client)
  {
    if !s.sup.pc.Connecting? {
      IdleSessionless(s, k);
    }
    SectionOfNothing(s.client);
  }

  lemma SuperviseSection(timeout: nat, s: State, k: Choice)
    requires WellFormed(s.client)
    ensures Section(s.client, SuperviseStep(timeout, s, k).client)
  {
    IdleSection(s, k);
    SetupSection(s, k);
    RunSection(s, k);
    EndSection(timeout, s, k);
    OneOfTheParts(timeout, s, k);
  }

  lemma StepSection(timeout: nat, s: State, step: Step)
    requires WellFormed(s.client) && Enabled(s, step)
    ensures Section(s.client, Apply(timeout, s, step).client)
  {
    if step.Supervise? {
      SuperviseSection(timeout, s, step.choice);
    } else {
      OutsideStep(timeout, s, step);
    }
  }

  /** Nothing has been published since the client was closed or failed. */
  ghost predicate NothingNew(c: Client, c': Client) {
    Later(c, c') &&
    (c.closed || c.terminalError.Some? ==>
       c'.publishedSession.Some? ==> c'.publishedSession == c.publishedSession)
  }

  lemma StillNothingNew(c: Client, c': Client, c'': Client)
    requires NothingNew(c, c') && Section(c', c'')
    ensures NothingNew(c, c'')
  {
    LaterTransitive(c, c', c'');
  }

  lemma {:induction false} StretchNothingNew(timeout: nat, states: seq<State>, steps: seq<Step>, i: nat, j: nat)
    requires IsRun(timeout, states, steps) && i <= j < |states|
    ensures NothingNew(states[i].client, states[j].client)
    decreases j
  {
    if i < j {
      StretchNothingNew(timeout, states, steps, i, j - 1);
      RunKeepsShape(timeout, states, steps, j - 1);
      StepSection(timeout, states[j - 1], steps[j - 1]);
      StillNothingNew(states[i].client, states[j - 1].client, states[j].client);
    }
  }

  /** Over any stretch of a run, closing and the terminal error are for good: the error is
      written at most once, and after either no session is published any more and none is
      handed out as ready. */
  lemma ClosedOrFailedForGood(timeout: nat, states: seq<State>, steps: seq<Step>, i: nat, j: nat)
    requires IsRun(timeout, states, steps) && i <= j < |states|
    ensures var c, c', ready := states[i].client, states[j].client, CurrentReady(states[j]);
            && Later(c, c')
            && (c.closed || c.terminalError.Some? ==>
                  && (c'.publishedSession.Some? ==> c'.publishedSession == c.publishedSession)
                  && ReadySession(c', ready) == None && !WaitReadyTurn(c', ready).ReadyNow?)
  {
    StretchNothingNew(timeout, states, steps, i, j);
  }

  /** In every reachable state the published session is the current one or there is none. */
  lemma PublishedIsCurrent(timeout: nat, states: seq<State>, steps: seq<Step>, i: nat)
    requires IsRun(timeout, states, steps) && i < |states|
    ensures states[i].client.publishedSession in {None, states[i].client.currentSession}
  {
    RunKeepsShape(timeout, states, steps, i);
  }

  // ------------------------------------------------- ready after a failure

  /** A session that is about to be started has not been started before. */
  ghost predicate StartsOnce(s: State) {
    s.sup.pc.SetCurrent? || s.sup.pc.CloseRefused? || s.sup.pc.Starting? ==>
      s.sup.pc.session < |s.sessions| && !s.sessions[s.sup.pc.session].started
  }

  /** A session gets ready only by being started, for the first time. */
  ghost predicate ReadyByStart(xs: seq<Session>, ys: seq<Session>) {
    |xs| <= |ys| && forall i :: 0 <= i < |xs| && xs[i].started ==> ys[i].started && (ys[i].ready ==> xs[i].ready)
  }

  ghost predicate Starts(s: State, s': State) {
    StartsOnce(s') && ReadyByStart(s.sessions, s'.sessions)
  }

  lemma EndsStart(timeout: nat, s: State, k: Choice)
    requires StartsOnce(s)
    ensures Starts(s, SuperviseIdle(s, k)) && Starts(s, SuperviseEnd(timeout, s, k))
  {
    if !s.sup.pc.Connecting? {
      IdleSessionless(s, k);
    }
    if !s.sup.pc.SetTerminal? && !s.sup.pc.CloseState? {
      EndSessionless(timeout, s, k);
    }
  }

  lemma SetupStarts(s: State, k: Choice)
    requires StartsOnce(s)
    ensures Starts(s, SuperviseSetup(s, k))
  {
    match s.sup.pc
    case CloseRefused(x) => CloseWanes(s.sessions, x);
    case CloseUnpublished(x) => CloseWanes(s.sessions, x);
    case _ =>
  }

  lemma RunStarts(s: State, k: Choice)
    requires StartsOnce(s)
    ensures Starts(s, SuperviseRun(s, k))
  {
    match s.sup.pc
    case CloseEnded(x, _) => CloseWanes(s.sessions, x);
    case FailOwn(x) => FailWanes(s.sessions, x, SUSPENDED);
    case _ => assert SuperviseRun(s, k).sessions == s.sessions;
  }

  lemma SuperviseStarts(timeout: nat, s: State, k: Choice)
    requires StartsOnce(s)
    ensures Starts(s, SuperviseStep(timeout, s, k))
  {
    EndsStart(timeout, s, k);
    SetupStarts(s, k);
    RunStarts(s, k);
    OneOfTheParts(timeout, s, k);
  }

  lemma StepStarts(timeout: nat, s: State, step: Step)
    requires WellFormed(s.client) && StartsOnce(s) && Enabled(s, step)
    ensures StartsOnce(Apply(timeout, s, step)) && ReadyByStart(s.sessions, Apply(timeout, s, step).sessions)
  {
    if step.Supervise? {
      SuperviseStarts(timeout, s, step.choice);
    } else {
      OutsideStep(timeout, s, step);
    }
  }

  lemma {:induction false} RunStartsOnce(timeout: nat, states: seq<State>, steps: seq<Step>, i: nat)
    requires IsRun(timeout, states, steps) && i < |states|
    ensures StartsOnce(states[i])
  {
    if i != 0 {
      RunStartsOnce(timeout, states, steps, i - 1);
      RunKeepsShape(timeout, states, steps, i - 1);
      StepStarts(timeout, states[i - 1], steps[i - 1]);
    }
  }

  /** A session that is not ready after it was started never gets ready again. */
  lemma {:induction false} StartedStaysUnready(
    timeout: nat, states: seq<State>, steps: seq<Step>, i: nat, j: nat, x: nat)
    requires IsRun(timeout, states, steps) && i <= j < |states| && x < |states[i].sessions|
    requires states[i].sessions[x].started && !states[i].sessions[x].ready
    ensures x < |states[j].sessions| && states[j].sessions[x].started && !states[j].sessions[x].ready
    decreases j
  {
    if i < j {
      StartedStaysUnready(timeout, states, steps, i, j - 1, x);
      RunStartsOnce(timeout, states, steps, j - 1);
      RunKeepsShape(timeout, states, steps, j - 1);
      StepStarts(timeout, states[j - 1], steps[j - 1]);
    }
  }

  /** The session has yet to be started, and will be unless the client is closed or cancelled
      before it becomes current. */
  predicate ToBeStarted(s: State, x: nat) {
    s.sup.pc == Starting(x) || (s.sup.pc == SetCurrent(x) && !s.client.closed && !s.done)
  }

  ghost predicate Doomed(s: State, x: nat) {
    WellFormed(s.client) && x < |s.sessions| && !s.sessions[x].ready && !ToBeStarted(s, x)
  }

  lemma IdleDooms(s: State, k: Choice, x: nat)
    requires Doomed(s, x)
    ensures Doomed(SuperviseIdle(s, k), x)
  {
    if !s.sup.pc.Connecting? {
      IdleSessionless(s, k);
    }
  }

  lemma SetupDooms(s: State, k: Choice, x: nat)
    requires Doomed(s, x)
    ensures Doomed(SuperviseSetup(s, k), x)
  {
    SetupSection(s, k);
    match s.sup.pc
    case SetCurrent(_) =>
    case CloseRefused(y) => CloseWanes(s.sessions, y);
    case Starting(_) =>
    case Publishing(_) =>
    case ClearUnpublished(_) =>
    case CloseUnpublished(y) => CloseWanes(s.sessions, y);
    case _ => assert SuperviseSetup(s, k) == s;
  }

  lemma RunDooms(s: State, k: Choice, x: nat)
    requires Doomed(s, x)
    ensures Doomed(SuperviseRun(s, k), x)
  {
    RunSection(s, k);
    match s.sup.pc
    case FailOwn(y) => FailWanes(s.sessions, y, SUSPENDED);
    case CloseEnded(y, _) => CloseWanes(s.sessions, y);
    case _ => assert SuperviseRun(s, k).sessions == s.sessions;
  }

  lemma EndDooms(timeout: nat, s: State, k: Choice, x: nat)
    requires Doomed(s, x)
    ensures Doomed(SuperviseEnd(timeout, s, k), x)
  {
    EndSection(timeout, s, k);
    if !s.sup.pc.SetTerminal? && !s.sup.pc.CloseState? {
      EndSessionless(timeout, s, k);
    }
  }

  lemma StepDooms(timeout: nat, s: State, step: Step, x: nat)
    requires Doomed(s, x) && Enabled(s, step)
    ensures Doomed(Apply(timeout, s, step), x)
  {
    if step.Supervise? {
      var k := step.choice;
      IdleDooms(s, k, x);
      SetupDooms(s, k, x);
      RunDooms(s, k, x);
      EndDooms(timeout, s, k, x);
      OneOfTheParts(timeout, s, k);
    } else {
      OutsideStep(timeout, s, step);
    }
  }

  lemma {:induction false} PathDooms(timeout: nat, s: State, states: seq<State>, steps: seq<Step>, i: nat, x: nat)
    requires IsPath(timeout, s, states, steps) && i < |states| && Doomed(s, x)
    ensures Doomed(states[i], x)
  {
    if i != 0 {
      PathDooms(timeout, s, states, steps, i - 1, x);
      StepDooms(timeout, states[i - 1], steps[i - 1], x);
    }
  }

  /** Some continuation makes the session ready. */
  ghost predicate CanGetReady(timeout: nat, s: State, x: nat) {
    exists states, steps :: IsPath(timeout, s, states, steps) && EndsReady(states, x)
  }

  ghost predicate EndsReady(states: seq<State>, x: nat) {
    states != [] && x < |states[|states| - 1].sessions| && states[|states| - 1].sessions[x].ready
  }

  const GO := Supervise(Choice(true, false, false))

  lemma StartGetsReady(timeout: nat, s: State, x: nat)
    requires x < |s.sessions| && ToBeStarted(s, x)
    ensures CanGetReady(timeout, s, x)
  {
    var s1 := Apply(timeout, s, GO);
    if s.sup.pc == Starting(x) {
      assert IsPath(timeout, s, [s, s1], [GO]) && EndsReady([s, s1], x);
    } else {
      var s2 := Apply(timeout, s1, GO);
      assert IsPath(timeout, s, [s, s1, s2], [GO, GO]) && EndsReady([s, s1, s2], x);
    }
  }

  /** From any reachable state, a session that is not ready, because it has failed or for any
      other reason, can get ready if and only if its start is still to come: the supervisor is
      about to start it, or to make it current on a client neither closed nor cancelled. */
  lemma ReadyAgainIff(timeout: nat, states: seq<State>, steps: seq<Step>, i: nat, x: nat)
    requires IsRun(timeout, states, steps) && i < |states|
    requires x < |states[i].sessions| && !states[i].sessions[x].ready
    ensures CanGetReady(timeout, states[i], x) <==> ToBeStarted(states[i], x)
  {
    var s := states[i];
    if ToBeStarted(s, x) {
      StartGetsReady(timeout, s, x);
    } else {
      RunKeepsShape(timeout, states, steps, i);
      forall later, taken | IsPath(timeout, s, later, taken) ensures !EndsReady(later, x) {
        PathDooms(timeout, s, later, taken, |later| - 1, x);
      }
    }
  }

  lemma Extended(timeout: nat, start: State, states: seq<State>, steps: seq<Step>, step: Step)
    returns (states': seq<State>, steps': seq<Step>)
    requires IsPath(timeout, start, states, steps) && Enabled(states[|steps|], step)
    ensures IsPath(timeout, start, states', steps') && states'[|steps'|] == Apply(timeout, states[|steps|], step)
  {
    states', steps' := states + [Apply(timeout, states[|steps|], step)], steps + [step];
  }

  ghost predicate AtFirstStart(s: State) {
    && s.sup.pc == Starting(0) && s.sessions == [NewSession()] && !s.done && s.calls.restarts == []
    && s.client == Signal(NewClient().(currentSession := Some(0)))
  }

  /** A supervisor for which everything succeeds gets to start its first session. */
  lemma FirstStart(timeout: nat) returns (states: seq<State>, steps: seq<Step>)
    ensures IsRun(timeout, states, steps) && AtFirstStart(states[|steps|])
  {
    var s0 := Initial();
    var s1 := Apply(timeout, s0, GO);
    var s2 := Apply(timeout, s1, GO);
    var s3 := Apply(timeout, s2, GO);
    var s4 := Apply(timeout, s3, GO);
    var s5 := Apply(timeout, s4, GO);
    var s6 := Apply(timeout, s5, GO);
    states := [s0, s1, s2, s3, s4, s5, s6];
    steps := [GO, GO, GO, GO, GO, GO];
  }

  ghost predicate FailedAtStart(s: State) {
    && s.sup.pc == Starting(0) && s.sessions == [Failed(NewSession(), NO_ERROR)] && !s.done
    && s.client == Signal(NewClient().(currentSession := Some(0)))
  }

  lemma RestartBeforeStart(timeout: nat) returns (states: seq<State>, steps: seq<Step>)
    ensures IsRun(timeout, states, steps) && FailedAtStart(states[|steps|])
  {
    states, steps := FirstStart(timeout);
    states, steps := Extended(timeout, Initial(), states, steps, CallRestart);
    states, steps := Extended(timeout, Initial(), states, steps, FailRestarted(0));
  }

  /** A session that failed before its start, because RestartSession came in between, is published
      and handed out as ready. */
  lemma FailedSessionPublished(timeout: nat) returns (states: seq<State>, steps: seq<Step>)
    ensures IsRun(timeout, states, steps)
    ensures var s := states[|steps|];
            && s.client.publishedSession == Some(0) && |s.sessions| == 1 && s.sessions[0].failed
            && ReadySession(s.client, CurrentReady(s)) == Some(0)
  {
    states, steps := RestartBeforeStart(timeout);
    states, steps := Extended(timeout, Initial(), states, steps, GO);
    states, steps := Extended(timeout, Initial(), states, steps, GO);
  }
}
