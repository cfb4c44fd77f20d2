/** The lifecycle fields of the client and their critical sections
    (client.go:165-218 and 380-390, client_supervisor.go:244-348). A channel that is closed to
    signal is a number: the `stateChanged` channels are numbered by `generation`, all earlier
    ones being closed, and `resumes` says of every `resumed` channel whether it is closed. */
module Lifecycle {

  datatype Option<T> = None | Some(value: T)

  /** What the supervisor looks at in an error: a suspension, or a terminal failure. */
  datatype Error = Error(suspended: bool, terminal: bool)

  datatype Client = Client(
    closed: bool, suspended: bool, resumes: seq<bool>, terminalError: Option<Error>,
    currentSession: Option<nat>, publishedSession: Option<nat>, generation: nat)

  function NewClient(): Client {
    Client(false, false, [], None, None, None, 0)
  }

  /** `signalStateChangedLocked`. */
  function Signal(c: Client): Client {
    c.(generation := c.generation + 1)
  }

  function SetCurrentSession(c: Client, done: bool, session: nat): (Client, bool) {
    if c.closed || done then (c, false)
    else (Signal(c.(currentSession := Some(session), publishedSession := None)), true)
  }

  function PublishCurrentSession(c: Client, done: bool, session: nat, ready: bool): (Client, bool) {
    if c.closed || c.terminalError.Some? || done || c.currentSession != Some(session) || !ready then (c, false)
    else (Signal(c.(publishedSession := Some(session))), true)
  }

  function ClearCurrentSession(c: Client, session: nat): Client {
    Signal(if c.currentSession == Some(session) then c.(currentSession := None, publishedSession := None) else c)
  }

  function SetTerminalError(c: Client, err: Error): Client {
    if c.closed || c.terminalError.Some? then c else Signal(c.(terminalError := Some(err)))
  }

  function CloseSupervisorState(c: Client): Client {
    Signal(c.(closed := c.closed || c.terminalError.None?, currentSession := None, publishedSession := None))
  }

  /** `Suspend` under the lock: the published session is the one to fail afterwards. */
  function Suspend(c: Client): (Client, Option<nat>) {
    if c.suspended || c.closed then (c, None)
    else (c.(suspended := true, resumes := c.resumes + [false]), c.publishedSession)
  }

  /** `Resume` under the lock: the current `resumed` channel is closed. */
  function Resume(c: Client): Client {
    if !c.suspended || c.resumes == [] then c
    else c.(suspended := false, resumes := c.resumes[|c.resumes| - 1 := true])
  }

  function CloseClient(c: Client): Client {
    Signal(c.(closed := true))
  }

  /** The test of `WaitReady`, given whether the current session reports ready. */
  predicate IsReady(c: Client, currentReady: bool) {
    c.currentSession.Some? && c.publishedSession == c.currentSession && currentReady
  }

  datatype ReadyAnswer = Terminal(err: Error) | ClosedClient | ReadyNow | BlockOn(generation: nat)

  function WaitReadyTurn(c: Client, currentReady: bool): ReadyAnswer {
    if c.terminalError.Some? then Terminal(c.terminalError.value)
    else if c.closed then ClosedClient
    else if IsReady(c, currentReady) then ReadyNow
    else BlockOn(c.generation)
  }

  /** `readySession`. */
  function ReadySession(c: Client, currentReady: bool): Option<nat> {
    if c.closed || c.terminalError.Some? || !IsReady(c, currentReady) then None else c.currentSession
  }

  // ----------------------------------------------------------- properties

  /** The published session is the current one, and the client is suspended exactly when the
      latest `resumed` channel exists and is open; every earlier one is closed. */
  ghost predicate WellFormed(c: Client) {
    && (c.publishedSession.Some? ==> c.publishedSession == c.currentSession)
    && (c.suspended <==> c.resumes != [] && !c.resumes[|c.resumes| - 1])
    && (forall i :: 0 <= i < |c.resumes| - 1 ==> c.resumes[i])
  }

  /** What no critical section takes back: being closed, a terminal error, a closed channel. */
  ghost predicate Later(c: Client, c': Client) {
    && (c.closed ==> c'.closed) && c.generation <= c'.generation
    && (c.terminalError.Some? ==> c'.terminalError == c.terminalError)
    && |c.resumes| <= |c'.resumes| && (forall i :: 0 <= i < |c.resumes| && c.resumes[i] ==> c'.resumes[i])
  }

  /** A session becomes published only while the client is neither closed nor failed. */
  ghost predicate PublishesOnlyWhileOpen(c: Client, c': Client) {
    c'.publishedSession.Some? && c'.publishedSession != c.publishedSession ==> !c.closed && c.terminalError.None?
  }

  ghost predicate Section(c: Client, c': Client) {
    WellFormed(c') && Later(c, c') && PublishesOnlyWhileOpen(c, c')
  }

  /** Every critical section keeps the invariant. */
  lemma SetCurrentSection(c: Client, done: bool, session: nat)
    requires WellFormed(c)
    ensures Section(c, SetCurrentSession(c, done, session).0)
  {}

  lemma PublishSection(c: Client, done: bool, session: nat, ready: bool)
    requires WellFormed(c)
    ensures Section(c, PublishCurrentSession(c, done, session, ready).0)
  {}

  lemma ClearSection(c: Client, session: nat)
    requires WellFormed(c)
    ensures Section(c, ClearCurrentSession(c, session))
  {}

  lemma TerminalSection(c: Client, err: Error)
    requires WellFormed(c)
    ensures Section(c, SetTerminalError(c, err))
  {}

  lemma CloseSections(c: Client)
    requires WellFormed(c)
    ensures Section(c, CloseSupervisorState(c)) && Section(c, CloseClient(c))
  {}

  lemma SuspendSection(c: Client)
    requires WellFormed(c)
    ensures Section(c, Suspend(c).0)
  {}

  lemma ResumeSection(c: Client)
    requires WellFormed(c)
    ensures Section(c, Resume(c))
  {}

  lemma LaterTransitive(a: Client, b: Client, c: Client)
    requires Later(a, b) && Later(b, c)
    ensures Later(a, c)
  {}

  // ------------------------------------------------------------ the object

  class ClientObject {
    var closed: bool
    var suspended: bool
    var resumes: seq<bool>
    var terminalError: Option<Error>
    var currentSession: Option<nat>
    var publishedSession: Option<nat>
    var generation: nat

    function View(): Client
      reads this
    {
      Client(closed, suspended, resumes, terminalError, currentSession, publishedSession, generation)
    }

    ghost predicate Valid()
      reads this
    {
      WellFormed(View())
    }

    constructor ()
      ensures Valid() && View() == NewClient()
    {
      closed, suspended, resumes := false, false, [];
      terminalError, currentSession, publishedSession, generation := None, None, None, 0;
    }

    method SetCurrent(done: bool, session: nat) returns (ok: bool)
      requires Valid()
      modifies this
      ensures Valid() && (View(), ok) == SetCurrentSession(old(View()), done, session)
    {
      if closed || done {
        return false;
      }
      currentSession := Some(session);
      publishedSession := None;
      generation := generation + 1;
      return true;
    }

    method PublishCurrent(done: bool, session: nat, ready: bool) returns (ok: bool)
      requires Valid()
      modifies this
      ensures Valid() && (View(), ok) == PublishCurrentSession(old(View()), done, session, ready)
    {
      if closed || terminalError.Some? || done || currentSession != Some(session) || !ready {
        return false;
      }
      publishedSession := Some(session);
      generation := generation + 1;
      return true;
    }

    method ClearCurrent(session: nat)
      requires Valid()
      modifies this
      ensures Valid() && View() == ClearCurrentSession(old(View()), session)
    {
      if currentSession == Some(session) {
        currentSession := None;
        publishedSession := None;
      }
      generation := generation + 1;
    }

    /** The result says whether the supervisor is to be cancelled. */
    method SetTerminal(err: Error) returns (cancel: bool)
      requires Valid()
      modifies this
      ensures Valid() && View() == SetTerminalError(old(View()), err) && (cancel <==> !old(closed))
    {
      if closed {
        return false;
      }
      if terminalError.None? {
        terminalError := Some(err);
        generation := generation + 1;
      }
      return true;
    }

    method CloseState()
      requires Valid()
      modifies this
      ensures Valid() && View() == CloseSupervisorState(old(View()))
    {
      if !closed && terminalError.None? {
        closed := true;
      }
      currentSession := None;
      publishedSession := None;
      generation := generation + 1;
    }

    method SuspendLocked() returns (session: Option<nat>)
      requires Valid()
      modifies this
      ensures Valid() && (View(), session) == Suspend(old(View()))
    {
      if suspended || closed {
        return None;
      }
      suspended := true;
      resumes := resumes + [false];
      return publishedSession;
    }

    /** The channel that is closed was open: it is never closed twice. */
    method ResumeLocked()
      requires Valid()
      modifies this
      ensures Valid() && View() == Resume(old(View()))
      ensures old(suspended) ==> |old(resumes)| > 0 && !old(resumes)[|old(resumes)| - 1]
    {
      if !suspended {
        return;
      }
      suspended := false;
      resumes := resumes[|resumes| - 1 := true];
    }

    method CloseLocked()
      requires Valid()
      modifies this
      ensures Valid() && View() == CloseClient(old(View()))
    {
      closed := true;
      generation := generation + 1;
    }
  }
}
