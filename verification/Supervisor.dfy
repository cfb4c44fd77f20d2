/** The client as a state machine: the supervisor goroutine, callers of Suspend, Resume,
    RestartSession, WaitReady and Close, the tunnel sessions and the event dispatcher
    (client_supervisor.go:80-242, client.go:154-218, 312-365 and 380-410). Each critical section
    is one step, and every unlock is a point where the others may run. */
module Supervisor {
  import opened Lifecycle
  import opened Reconnect

  // -------------------------------------------------------------- sessions

  /** A tunnel session as the client sees it: `failed` once `Fail` has run, with its error. */
  datatype Session = Session(ready: bool, failed: bool, error: Error, closed: bool, started: bool)

  const NO_ERROR := Error(false, false)
  const SUSPENDED := Error(true, false)
  const TERMINAL := Error(false, true)

  function NewSession(): Session {
    Session(false, false, NO_ERROR, false, false)
  }

  /** `tunnelSession.Fail`: only the first call counts. */
  function Failed(x: Session, err: Error): Session {
    if x.failed then x else x.(ready := false, failed := true, error := err)
  }

  /** `tunnelSession.Close`. */
  function Closed(x: Session): Session {
    Failed(x.(ready := false), NO_ERROR).(closed := true)
  }

  /** `tunnelSession.Start`, which marks the session ready even if it has failed before. */
  function Started(x: Session): Session {
    x.(ready := true, started := true)
  }

  // ------------------------------------------------------------ supervisor

  /** Where the supervisor stands: what it does next. */
  datatype Pc =
    | Top
    | TestSuspended
    | WaitResumed
    | BlockedOnResume(channel: nat)
    | Authenticating
    | AuthFailed(terminal: bool)
    | TestSuspendedAuth
    | Connecting
    | SetCurrent(session: nat)
    | CloseRefused(session: nat)
    | Starting(session: nat)
    | Publishing(session: nat)
    | ClearUnpublished(session: nat)
    | CloseUnpublished(session: nat)
    | AnnounceUp(session: nat)
    | WakeUp(session: nat)
    | TestSuspendedRun(session: nat)
    | FailOwn(session: nat)
    | WaitingDone(session: nat)
    | CloseEnded(session: nat, err: Error)
    | ClearEnded(session: nat, err: Error)
    | AnnounceDown(err: Error)
    | WakeDown(err: Error)
    | AfterRun(wasPublished: bool, err: Error)
    | AfterRunSuspended(wasPublished: bool, err: Error)
    | BackingOff
    | Timing(wait: int)
    | SetTerminal(err: Error)
    | CancelSelf
    | ReleaseWeb
    | CloseState
    | Finished

  /** What happened to the tunnel, in order. */
  datatype Item = Up(reestablished: bool) | Down | Reset

  /** The supervisor's own variables, and its history: web sessions authenticated and released,
      waits since the reconnect state was set, and tunnel events. */
  datatype Sup = Sup(
    pc: Pc, web: Option<nat>, webs: nat, releasedWebs: seq<nat>,
    reconnect: ReconnectState, tries: nat, waited: int, timeouts: nat, log: seq<Item>)

  // ----------------------------------------------------------------- events

  datatype Dispatcher =
    | AtTop | Blocked | Calling(item: Item) | Stopping | Grabbing
    | SettingTerminal(session: Option<nat>) | Cancelling(session: Option<nat>) | Failing(session: Option<nat>) | Exited

  datatype Events = Events(queue: seq<Item>, stopped: bool, wake: bool, dispatcher: Dispatcher, delivered: seq<Item>)

  // ---------------------------------------------------------------- callers

  datatype Closer =
    | NotClosing | StopEvents(session: Option<nat>) | WakeEvents(session: Option<nat>)
    | CloseSession(session: Option<nat>) | AwaitSupervisor | ClosedAll

  /** Calls under way: sessions a Suspend call has yet to fail, sessions a RestartSession call has
      yet to fail, `stateChanged` channels WaitReady callers are blocked on, and Close. */
  datatype Calls = Calls(owed: seq<nat>, restarts: seq<nat>, waiters: seq<nat>, closer: Closer)

  datatype State = State(client: Client, sessions: seq<Session>, done: bool, sup: Sup, ev: Events, calls: Calls)

  // ------------------------------------------------------------------ steps

  /** What the environment decides in a supervisor step: whether a foreign operation succeeds,
      whether its error is terminal, and whether a select sees the context first. */
  datatype Choice = Choice(succeed: bool, terminal: bool, context: bool)

  datatype Step =
    | Supervise(choice: Choice)
    | CallSuspend | FailSuspended(call: nat)
    | CallResume
    | CallRestart | FailRestarted(call: nat)
    | CallClose | Close
    | CancelContext
    | SessionFails(session: nat, err: Error)
    | CallWaitReady | WakeWaiter(call: nat)
    | Dispatch(callbackOk: bool)

  function PcSession(pc: Pc): Option<nat> {
    match pc
    case SetCurrent(x) => Some(x)
    case CloseRefused(x) => Some(x)
    case Starting(x) => Some(x)
    case Publishing(x) => Some(x)
    case ClearUnpublished(x) => Some(x)
    case CloseUnpublished(x) => Some(x)
    case AnnounceUp(x) => Some(x)
    case WakeUp(x) => Some(x)
    case TestSuspendedRun(x) => Some(x)
    case FailOwn(x) => Some(x)
    case WaitingDone(x) => Some(x)
    case CloseEnded(x, _) => Some(x)
    case ClearEnded(x, _) => Some(x)
    case _ => None
  }

  function CurrentReady(s: State): bool {
    s.client.currentSession.Some? && s.client.currentSession.value < |s.sessions| &&
    s.sessions[s.client.currentSession.value].ready
  }

  function At(s: State, pc: Pc): State {
    s.(sup := s.sup.(pc := pc))
  }

  /** `discardWebSession`. */
  function Discard(u: Sup): Sup {
    if u.web.Some? then u.(web := None, releasedWebs := u.releasedWebs + [u.web.value]) else u
  }

  function Fresh(u: Sup): Sup {
    u.(reconnect := NewReconnectState(), tries := 0, waited := 0, log := u.log + [Reset])
  }

  function FailAt(sessions: seq<Session>, x: nat, err: Error): seq<Session> {
    if x < |sessions| then sessions[x := Failed(sessions[x], err)] else sessions
  }

  function CloseAt(sessions: seq<Session>, x: nat): seq<Session> {
    if x < |sessions| then sessions[x := Closed(sessions[x])] else sessions
  }

  /** `publishTunnelEvent` under the event lock. */
  function Publish(ev: Events, item: Item): Events {
    if ev.stopped then ev else ev.(queue := ev.queue + [item])
  }

  /** The part of the loop that holds no tunnel session (client_supervisor.go:88-130). */
  function SuperviseIdle(s: State, k: Choice): State {
    var u := s.sup;
    match u.pc
    case Top => At(s, if s.done || s.client.closed then ReleaseWeb else TestSuspended)
    case TestSuspended =>
      if s.client.suspended then s.(sup := Discard(u).(pc := WaitResumed))
      else At(s, if u.web.None? then Authenticating else Connecting)
    case WaitResumed =>
      if s.client.suspended && s.client.resumes != [] then At(s, BlockedOnResume(|s.client.resumes| - 1))
      else s.(sup := Fresh(u).(pc := Authenticating))
    case BlockedOnResume(channel) =>
      if k.context && s.done then At(s, ReleaseWeb) else s.(sup := Fresh(u).(pc := Authenticating))
    case Authenticating =>
      if k.succeed then s.(sup := u.(pc := TestSuspendedAuth, web := Some(u.webs), webs := u.webs + 1))
      else At(s, AuthFailed(k.terminal))
    case AuthFailed(terminal) =>
      At(s, if s.done || s.client.closed then ReleaseWeb else if terminal then SetTerminal(TERMINAL) else BackingOff)
    case TestSuspendedAuth => At(s, if s.client.suspended then Top else Connecting)
    case Connecting =>
      if k.succeed then At(s, SetCurrent(|s.sessions|)).(sessions := s.sessions + [NewSession()])
      else At(s, AfterRun(false, Error(false, k.terminal)))
    case _ => s
  }

  /** `runSession` up to the announcement (client_supervisor.go:174-192). */
  function SuperviseSetup(s: State, k: Choice): State {
    match s.sup.pc
    case SetCurrent(x) =>
      var (c, ok) := SetCurrentSession(s.client, s.done, x);
      At(s.(client := c), if ok then Starting(x) else CloseRefused(x))
    case CloseRefused(x) => At(s.(sessions := CloseAt(s.sessions, x)), AfterRun(false, NO_ERROR))
    case Starting(x) =>
      At(if x < |s.sessions| then s.(sessions := s.sessions[x := Started(s.sessions[x])]) else s, Publishing(x))
    case Publishing(x) =>
      var (c, ok) := PublishCurrentSession(s.client, s.done, x, x < |s.sessions| && s.sessions[x].ready);
      At(s.(client := c), if ok then AnnounceUp(x) else ClearUnpublished(x))
    case ClearUnpublished(x) => At(s.(client := ClearCurrentSession(s.client, x)), CloseUnpublished(x))
    case CloseUnpublished(x) => At(s.(sessions := CloseAt(s.sessions, x)), AfterRun(false, NO_ERROR))
    case _ => s
  }

  /** `runSession` with the tunnel up, and its end (client_supervisor.go:192-219). */
  function SuperviseRun(s: State, k: Choice): State {
    var u := s.sup;
    match u.pc
    case AnnounceUp(x) =>
      var item := Up(u.reconnect.established);
      s.(ev := Publish(s.ev, item), sup := u.(log := u.log + [item], pc := WakeUp(x)))
    case WakeUp(x) => At(s.(ev := s.ev.(wake := true)), TestSuspendedRun(x))
    case TestSuspendedRun(x) => At(s, if s.client.suspended then FailOwn(x) else WaitingDone(x))
    case FailOwn(x) => At(s.(sessions := FailAt(s.sessions, x, SUSPENDED)), WaitingDone(x))
    case WaitingDone(x) =>
      var err := if (k.context && s.done) || |s.sessions| <= x then NO_ERROR else s.sessions[x].error;
      At(s, CloseEnded(x, err))
    case CloseEnded(x, err) => At(s.(sessions := CloseAt(s.sessions, x)), ClearEnded(x, err))
    case ClearEnded(x, err) => At(s.(client := ClearCurrentSession(s.client, x)), AnnounceDown(err))
    case AnnounceDown(err) =>
      s.(ev := Publish(s.ev, Down), sup := u.(log := u.log + [Down], pc := WakeDown(err)))
    case WakeDown(err) => At(s.(ev := s.ev.(wake := true)), AfterRun(true, err))
    case _ => s
  }

  /** The loop behind `runSession`, the backoff, and the deferred calls
      (client_supervisor.go:136-166, 222-242, 286-304 and 339-348). */
  function SuperviseEnd(timeout: nat, s: State, k: Choice): State {
    var u := s.sup;
    match u.pc
    case AfterRun(published, err) =>
      At(s, if s.done || s.client.closed then ReleaseWeb else AfterRunSuspended(published, err))
    case AfterRunSuspended(published, err) =>
      if err.suspended || s.client.suspended then s.(sup := Fresh(Discard(u)).(pc := Top))
      else if err.terminal then At(s, SetTerminal(err))
      else if published then
        s.(sup := Discard(u).(reconnect := TunnelLost(u.reconnect, timeout), tries := 0, waited := 0, pc := Top))
      else s.(sup := Discard(u).(pc := BackingOff))
    case BackingOff =>
      if OutOfBudget(u.reconnect) then s.(sup := u.(timeouts := u.timeouts + 1, pc := SetTerminal(NO_ERROR)))
      else At(s, Timing(NextWait(u.reconnect)))
    case Timing(wait) =>
      if k.context && s.done then At(s, ReleaseWeb)
      else s.(sup := u.(reconnect := AttemptFailed(Waited(u.reconnect, wait)), tries := u.tries + 1,
                        waited := if u.reconnect.reconnecting then u.waited + wait else u.waited, pc := Top))
    case SetTerminal(err) =>
      At(s.(client := SetTerminalError(s.client, err)), if s.client.closed then ReleaseWeb else CancelSelf)
    case CancelSelf => At(s.(done := true), ReleaseWeb)
    case ReleaseWeb => s.(sup := Discard(u).(pc := CloseState))
    case CloseState => At(s.(client := CloseSupervisorState(s.client)), Finished)
    case _ => s
  }

  /** A blocked supervisor runs on once the channel it waits for is closed, or the context is. */
  predicate Unblocked(s: State, k: Choice) {
    match s.sup.pc
    case BlockedOnResume(channel) =>
      (k.context && s.done) || (channel < |s.client.resumes| && s.client.resumes[channel])
    case WaitingDone(x) => (k.context && s.done) || (x < |s.sessions| && s.sessions[x].failed)
    case Timing(_) => true
    case Finished => false
    case _ => true
  }

  function SuperviseStep(timeout: nat, s: State, k: Choice): State {
    match s.sup.pc
    case Top => SuperviseIdle(s, k)
    case TestSuspended => SuperviseIdle(s, k)
    case WaitResumed => SuperviseIdle(s, k)
    case BlockedOnResume(_) => SuperviseIdle(s, k)
    case Authenticating => SuperviseIdle(s, k)
    case AuthFailed(_) => SuperviseIdle(s, k)
    case TestSuspendedAuth => SuperviseIdle(s, k)
    case Connecting => SuperviseIdle(s, k)
    case SetCurrent(_) => SuperviseSetup(s, k)
    case CloseRefused(_) => SuperviseSetup(s, k)
    case Starting(_) => SuperviseSetup(s, k)
    case Publishing(_) => SuperviseSetup(s, k)
    case ClearUnpublished(_) => SuperviseSetup(s, k)
    case CloseUnpublished(_) => SuperviseSetup(s, k)
    case AfterRun(_, _) => SuperviseEnd(timeout, s, k)
    case AfterRunSuspended(_, _) => SuperviseEnd(timeout, s, k)
    case BackingOff => SuperviseEnd(timeout, s, k)
    case Timing(_) => SuperviseEnd(timeout, s, k)
    case SetTerminal(_) => SuperviseEnd(timeout, s, k)
    case CancelSelf => SuperviseEnd(timeout, s, k)
    case ReleaseWeb => SuperviseEnd(timeout, s, k)
    case CloseState => SuperviseEnd(timeout, s, k)
    case _ => SuperviseRun(s, k)
  }

  /** One step of `runTunnelEventDispatcher` (client.go:330-365). */
  function DispatchStep(s: State, callbackOk: bool): State {
    var ev := s.ev;
    match ev.dispatcher
    case AtTop =>
      if ev.stopped then s.(ev := ev.(queue := [], dispatcher := Exited))
      else if ev.queue == [] then s.(ev := ev.(dispatcher := Blocked))
      else
        var item := ev.queue[0];
        s.(ev := ev.(queue := ev.queue[1..], dispatcher := Calling(item), delivered := ev.delivered + [item]))
    case Blocked => s.(ev := ev.(wake := false, dispatcher := AtTop))
    case Calling(_) => s.(ev := ev.(dispatcher := if callbackOk then AtTop else Stopping))
    case Stopping => s.(ev := ev.(stopped := true, queue := [], dispatcher := Grabbing))
    case Grabbing => s.(ev := ev.(dispatcher := SettingTerminal(s.client.currentSession)))
    case SettingTerminal(x) =>
      s.(client := SetTerminalError(s.client, TERMINAL),
         ev := ev.(dispatcher := if s.client.closed then Failing(x) else Cancelling(x)))
    case Cancelling(x) => s.(done := true, ev := ev.(dispatcher := Failing(x)))
    case Failing(x) =>
      s.(sessions := if x.Some? then FailAt(s.sessions, x.value, TERMINAL) else s.sessions,
         ev := ev.(dispatcher := Exited))
    case Exited => s
  }

  /** One step of `Close` behind its critical section (client.go:391-409). */
  function CloseStep(s: State): State {
    match s.calls.closer
    case StopEvents(x) =>
      s.(ev := s.ev.(stopped := true, queue := []), calls := s.calls.(closer := WakeEvents(x)))
    case WakeEvents(x) => s.(ev := s.ev.(wake := true), calls := s.calls.(closer := CloseSession(x)))
    case CloseSession(x) =>
      s.(sessions := if x.Some? then CloseAt(s.sessions, x.value) else s.sessions,
         calls := s.calls.(closer := AwaitSupervisor))
    case AwaitSupervisor => s.(calls := s.calls.(closer := ClosedAll))
    case _ => s
  }

  function Without(calls: seq<nat>, i: nat): seq<nat>
    requires i < |calls|
  {
    calls[..i] + calls[i + 1..]
  }

  predicate Enabled(s: State, step: Step) {
    match step
    case Supervise(k) => Unblocked(s, k)
    case FailSuspended(i) => i < |s.calls.owed|
    case FailRestarted(i) => i < |s.calls.restarts|
    case CallClose => s.calls.closer == NotClosing
    case Close => s.calls.closer != NotClosing && s.calls.closer != ClosedAll &&
                  (s.calls.closer == AwaitSupervisor ==> s.sup.pc == Finished)
    case SessionFails(x, err) => x < |s.sessions| && s.sessions[x].started && !err.suspended
    case WakeWaiter(i) => i < |s.calls.waiters| && s.calls.waiters[i] < s.client.generation
    case Dispatch(_) => s.ev.dispatcher != Exited && (s.ev.dispatcher == Blocked ==> s.ev.wake)
    case _ => true
  }

  function Apply(timeout: nat, s: State, step: Step): State
    requires Enabled(s, step)
  {
    match step
    case Supervise(k) => SuperviseStep(timeout, s, k)
    case CallSuspend =>
      var (c, x) := Suspend(s.client);
      s.(client := c, calls := if x.Some? then s.calls.(owed := s.calls.owed + [x.value]) else s.calls)
    case FailSuspended(i) =>
      s.(sessions := FailAt(s.sessions, s.calls.owed[i], SUSPENDED),
         calls := s.calls.(owed := Without(s.calls.owed, i)))
    case CallResume => s.(client := Resume(s.client))
    case CallRestart =>
      var x := s.client.currentSession;
      s.(calls := if x.Some? then s.calls.(restarts := s.calls.restarts + [x.value]) else s.calls)
    case FailRestarted(i) =>
      s.(sessions := FailAt(s.sessions, s.calls.restarts[i], NO_ERROR),
         calls := s.calls.(restarts := Without(s.calls.restarts, i)))
    case CallClose =>
      s.(client := CloseClient(s.client), done := true,
         calls := s.calls.(closer := StopEvents(s.client.currentSession)))
    case Close => CloseStep(s)
    case CancelContext => s.(done := true)
    case SessionFails(x, err) => s.(sessions := FailAt(s.sessions, x, err))
    case CallWaitReady =>
      var answer := WaitReadyTurn(s.client, CurrentReady(s));
      s.(calls := if answer.BlockOn? then s.calls.(waiters := s.calls.waiters + [answer.generation]) else s.calls)
    case WakeWaiter(i) => s.(calls := s.calls.(waiters := Without(s.calls.waiters, i)))
    case Dispatch(ok) => DispatchStep(s, ok)
  }

  function Initial(): State {
    State(NewClient(), [], false,
          Sup(Top, None, 0, [], NewReconnectState(), 0, 0, 0, []),
          Events([], false, false, AtTop, []),
          Calls([], [], [], NotClosing))
  }

  /** The states of a sequence of steps that were each enabled at their turn. */
  ghost predicate IsPath(timeout: nat, start: State, states: seq<State>, steps: seq<Step>) {
    && |states| == |steps| + 1 && states[0] == start
    && forall i {:trigger steps[i]} :: 0 <= i < |steps| ==>
         Enabled(states[i], steps[i]) && states[i + 1] == Apply(timeout, states[i], steps[i])
  }

  ghost predicate IsRun(timeout: nat, states: seq<State>, steps: seq<Step>) {
    IsPath(timeout, Initial(), states, steps)
  }
}
