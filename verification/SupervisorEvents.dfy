/** What every run keeps about tunnel events and their delivery. */
module SupervisorEvents {
  import opened Supervisor
  import opened SupervisorSessions
  import opened SupervisorBudget

  // -------------------------------------------------------------- the log

  /** The tunnel is up at the end of the log. */
  function IsUp(log: seq<Item>): bool {
    log != [] && match log[|log| - 1]
      case Up(_) => true
      case Down => false
      case Reset => IsUp(log[..|log| - 1])
  }

  /** A tunnel has come up since the reconnect state was last reset. */
  function UpSinceReset(log: seq<Item>): bool {
    log != [] && match log[|log| - 1]
      case Up(_) => true
      case Down => UpSinceReset(log[..|log| - 1])
      case Reset => false
  }

  /** The last item fits what came before: up when down, down when up, and an up is a
      re-establishment exactly when a tunnel came up since the last reset. */
  ghost predicate Fits(log: seq<Item>, item: Item) {
    match item
    case Up(reestablished) => !IsUp(log) && (reestablished <==> UpSinceReset(log))
    case Down => IsUp(log)
    case Reset => true
  }

  ghost predicate Proper(log: seq<Item>) {
    log != [] ==> Proper(log[..|log| - 1]) && Fits(log[..|log| - 1], log[|log| - 1])
  }

  /** The events of the log; a reset is not announced. */
  function Reported(log: seq<Item>): seq<Item> {
    if log == [] then [] else
      Reported(log[..|log| - 1]) + if log[|log| - 1].Reset? then [] else [log[|log| - 1]]
  }

  lemma Appended(log: seq<Item>, item: Item)
    ensures IsUp(log + [item]) == if item.Reset? then IsUp(log) else item.Up?
    ensures UpSinceReset(log + [item]) == if item.Down? then UpSinceReset(log) else item.Up?
    ensures Proper(log + [item]) <==> Proper(log) && Fits(log, item)
    ensures Reported(log + [item]) == Reported(log) + if item.Reset? then [] else [item]
  {
    assert (log + [item])[..|log|] == log;
  }

  /** Events alternate, starting with an up. */
  lemma {:induction false} ReportedAlternate(log: seq<Item>, i: nat)
    requires Proper(log) && i < |Reported(log)|
    ensures Reported(log)[i].Up? <==> i % 2 == 0
    ensures Reported(log)[i].Down? <==> i % 2 == 1
    decreases |log|
  {
    var init := log[..|log| - 1];
    ReportedParity(init);
    if i < |Reported(init)| {
      ReportedAlternate(init, i);
    }
  }

  lemma {:induction false} ReportedParity(log: seq<Item>)
    requires Proper(log)
    ensures IsUp(log) <==> |Reported(log)| % 2 == 1
    decreases |log|
  {
    if log != [] {
      ReportedParity(log[..|log| - 1]);
    }
  }

  /** Up at j and no reset between j and the end. */
  ghost predicate UpAt(log: seq<Item>, j: nat) {
    j < |log| && log[j].Up? && forall k :: j < k < |log| ==> !log[k].Reset?
  }

  lemma {:induction false} UpSinceResetMeans(log: seq<Item>)
    ensures UpSinceReset(log) <==> exists j: nat :: UpAt(log, j)
    decreases |log|
  {
    if log != [] {
      var n := |log| - 1;
      var init := log[..n];
      UpSinceResetMeans(init);
      if log[n].Up? {
        assert UpAt(log, n);
      } else if log[n].Down? {
        forall j: nat | UpAt(init, j) ensures UpAt(log, j) {}
        forall j: nat | UpAt(log, j) ensures UpAt(init, j) {}
      }
    }
  }

  lemma {:induction false} ProperPrefix(log: seq<Item>, i: nat)
    requires Proper(log) && i < |log|
    ensures Proper(log[..i]) && Fits(log[..i], log[i])
    decreases |log|
  {
    var n := |log| - 1;
    if i < n {
      ProperPrefix(log[..n], i);
      assert log[..n][..i] == log[..i];
    }
  }

  // ------------------------------------------------------ the supervisor

  predicate UpAnnounced(pc: Pc) {
    || pc.WakeUp? || pc.TestSuspendedRun? || pc.FailOwn? || pc.WaitingDone? || pc.CloseEnded? || pc.ClearEnded?
    || pc.AnnounceDown?
  }

  /** The tunnel that was published has been announced, and the loop has yet to react to its end. */
  predicate Ran(pc: Pc) {
    UpAnnounced(pc) || pc.WakeDown? || (pc.AfterRun? && pc.wasPublished) || (pc.AfterRunSuspended? && pc.wasPublished)
  }

  /** What the log and the reconnect state say at a place of the loop: whether the tunnel is up,
      whether one has come up since the last reset, and whether the state calls it established. */
  predicate LogFits(pc: Pc, established: bool, up: bool, since: bool) {
    (up <==> UpAnnounced(pc)) && if Ran(pc) then since else Gone(pc) || (established <==> since)
  }

  ghost predicate LogKept(u: Sup) {
    Proper(u.log) && LogFits(u.pc, u.reconnect.established, IsUp(u.log), UpSinceReset(u.log))
  }

  /** The supervisor moves on without writing to the log: on its way out, still reacting to a
      tunnel that ran or now calling it established, or with nothing of this changed. */
  ghost predicate MovesOn(u: Sup, u': Sup) {
    && u'.log == u.log && (UpAnnounced(u'.pc) <==> UpAnnounced(u.pc))
    && (|| Gone(u'.pc)
        || (Ran(u.pc) && (Ran(u'.pc) || u'.reconnect.established))
        || (!Ran(u.pc) && !Ran(u'.pc) && !Gone(u.pc) && u'.reconnect.established == u.reconnect.established)
        || u' == u)
  }

  /** The supervisor resets the reconnect state, at a place where no tunnel is up. */
  ghost predicate StartsOver(u: Sup, u': Sup) {
    u'.log == u.log + [Reset] && !UpAnnounced(u.pc) && !UpAnnounced(u'.pc) && !Ran(u'.pc) && !u'.reconnect.established
  }

  lemma EitherKeepsLog(u: Sup, u': Sup)
    requires LogKept(u) && (MovesOn(u, u') || StartsOver(u, u'))
    ensures LogKept(u')
  {
    Appended(u.log, Reset);
  }

  lemma IdleMovesOn(s: State, k: Choice)
    requires !s.sup.pc.WaitResumed? && !s.sup.pc.BlockedOnResume?
    ensures MovesOn(s.sup, SuperviseIdle(s, k).sup)
  {
    match s.sup.pc
    case Top =>
    case TestSuspended =>
    case Authenticating =>
    case AuthFailed(_) =>
    case TestSuspendedAuth =>
    case Connecting =>
    case _ =>
  }

  lemma IdleMoves(s: State, k: Choice)
    ensures MovesOn(s.sup, SuperviseIdle(s, k).sup) || StartsOver(s.sup, SuperviseIdle(s, k).sup)
  {
    if !s.sup.pc.WaitResumed? && !s.sup.pc.BlockedOnResume? {
      IdleMovesOn(s, k);
    }
  }

  lemma SetupMoves(s: State, k: Choice)
    ensures MovesOn(s.sup, SuperviseSetup(s, k).sup)
  {
    match s.sup.pc
    case SetCurrent(_) =>
    case CloseRefused(_) =>
    case Starting(_) =>
    case Publishing(_) =>
    case ClearUnpublished(_) =>
    case CloseUnpublished(_) =>
    case _ => assert SuperviseSetup(s, k) == s;
  }

  lemma AfterRunMoves(timeout: nat, s: State, k: Choice)
    requires s.sup.pc.AfterRunSuspended?
    ensures MovesOn(s.sup, SuperviseEnd(timeout, s, k).sup) || StartsOver(s.sup, SuperviseEnd(timeout, s, k).sup)
  {}

  lemma EndMoves(timeout: nat, s: State, k: Choice)
    ensures MovesOn(s.sup, SuperviseEnd(timeout, s, k).sup) || StartsOver(s.sup, SuperviseEnd(timeout, s, k).sup)
  {
    match s.sup.pc
    case AfterRun(_, _) =>
    case AfterRunSuspended(_, _) => AfterRunMoves(timeout, s, k);
    case BackingOff =>
    case Timing(_) =>
    case SetTerminal(_) =>
    case CancelSelf =>
    case ReleaseWeb =>
    case CloseState =>
    case _ => assert SuperviseEnd(timeout, s, k) == s;
  }

  lemma RunMoves(s: State, k: Choice)
    requires !s.sup.pc.AnnounceUp? && !s.sup.pc.AnnounceDown?
    ensures MovesOn(s.sup, SuperviseRun(s, k).sup)
  {}

  lemma RunKeepsLog(s: State, k: Choice)
    requires LogKept(s.sup)
    ensures LogKept(SuperviseRun(s, k).sup)
  {
    if s.sup.pc.AnnounceUp? {
      Appended(s.sup.log, Up(s.sup.reconnect.established));
    } else if s.sup.pc.AnnounceDown? {
      Appended(s.sup.log, Down);
    } else {
      RunMoves(s, k);
    }
  }

  lemma StepKeepsLog(timeout: nat, s: State, step: Step)
    requires LogKept(s.sup) && Enabled(s, step)
    ensures LogKept(Apply(timeout, s, step).sup)
  {
    if step.Supervise? {
      var k := step.choice;
      IdleMoves(s, k);
      SetupMoves(s, k);
      EndMoves(timeout, s, k);
      EitherKeepsLog(s.sup, SuperviseIdle(s, k).sup);
      EitherKeepsLog(s.sup, SuperviseSetup(s, k).sup);
      EitherKeepsLog(s.sup, SuperviseEnd(timeout, s, k).sup);
      RunKeepsLog(s, k);
      OneOfTheParts(timeout, s, k);
    } else {
      OthersLeaveSup(timeout, s, step);
    }
  }

  lemma {:induction false} RunKeepsLogs(timeout: nat, states: seq<State>, steps: seq<Step>, i: nat)
    requires IsRun(timeout, states, steps) && i < |states|
    ensures LogKept(states[i].sup)
  {
    if i != 0 {
      RunKeepsLogs(timeout, states, steps, i - 1);
      StepKeepsLog(timeout, states[i - 1], steps[i - 1]);
    }
  }

  /** In every run the published events alternate up, disconnect, up, disconnect; and an up event
      is a re-establishment exactly when an earlier tunnel came up with no suspension having
      reset the reconnect state since. */
  lemma EventsAlternate(timeout: nat, states: seq<State>, steps: seq<Step>, i: nat)
    requires IsRun(timeout, states, steps) && i < |states|
    ensures var log := states[i].sup.log;
            && (forall k :: 0 <= k < |Reported(log)| ==>
                  (Reported(log)[k].Up? <==> k % 2 == 0) && (Reported(log)[k].Down? <==> k % 2 == 1))
            && (forall k :: 0 <= k < |log| && log[k].Up? ==>
                  (log[k].reestablished <==> exists j: nat :: UpAt(log[..k], j)))
  {
    RunKeepsLogs(timeout, states, steps, i);
    var log := states[i].sup.log;
    forall k | 0 <= k < |Reported(log)|
      ensures (Reported(log)[k].Up? <==> k % 2 == 0) && (Reported(log)[k].Down? <==> k % 2 == 1)
    {
      ReportedAlternate(log, k);
    }
    forall k | 0 <= k < |log| && log[k].Up?
      ensures log[k].reestablished <==> exists j: nat :: UpAt(log[..k], j)
    {
      ProperPrefix(log, k);
      UpSinceResetMeans(log[..k]);
    }
  }

  // ----------------------------------------------------------- delivery

  ghost predicate Delivering(ev: Events, log: seq<Item>) {
    if ev.stopped then ev.queue == [] && ev.delivered <= Reported(log)
    else ev.delivered + ev.queue == Reported(log)
  }

  /** A blocked dispatcher has nothing to do, or the wakeup is there or on its way. */
  ghost predicate WakeOwed(s: State) {
    s.ev.dispatcher == Blocked && (s.ev.queue != [] || s.ev.stopped) ==>
      s.ev.wake || s.sup.pc.WakeUp? || s.sup.pc.WakeDown? || s.calls.closer.WakeEvents?
  }

  /** The dispatcher has seen a callback error, or has left. */
  predicate Over(d: Dispatcher) {
    d.Stopping? || d.Grabbing? || d.SettingTerminal? || d.Cancelling? || d.Failing? || d.Exited?
  }

  ghost predicate EventsKept(s: State) {
    Delivering(s.ev, s.sup.log) && WakeOwed(s)
  }

  lemma AnnouncementDelivers(ev: Events, log: seq<Item>, item: Item)
    requires Delivering(ev, log) && !item.Reset?
    ensures Delivering(Publish(ev, item), log + [item])
  {
    Appended(log, item);
    assert ev.delivered + (ev.queue + [item]) == ev.delivered + ev.queue + [item];
  }

  lemma RunDelivers(s: State, k: Choice)
    requires EventsKept(s)
    ensures EventsKept(SuperviseRun(s, k))
  {
    match s.sup.pc
    case AnnounceUp(_) => AnnouncementDelivers(s.ev, s.sup.log, Up(s.sup.reconnect.established));
    case AnnounceDown(_) => AnnouncementDelivers(s.ev, s.sup.log, Down);
    case WakeUp(_) =>
    case WakeDown(_) =>
    case _ => assert SuperviseRun(s, k).ev == s.ev && SuperviseRun(s, k).sup.log == s.sup.log;
  }

  /** The rest of the supervisor leaves the events alone and reports nothing. */
  ghost predicate Silent(s: State, s': State) {
    s'.ev == s.ev && s'.calls == s.calls && Reported(s'.sup.log) == Reported(s.sup.log) &&
    (s' == s || (!s.sup.pc.WakeUp? && !s.sup.pc.WakeDown?))
  }

  lemma SilentDelivers(s: State, s': State)
    requires EventsKept(s) && Silent(s, s')
    ensures EventsKept(s')
  {}

  lemma IdleWrites(s: State, k: Choice)
    ensures var s' := SuperviseIdle(s, k);
            && s'.ev == s.ev && s'.calls == s.calls
            && (s'.sup.log == s.sup.log || s'.sup.log == s.sup.log + [Reset])
            && (s' == s || (!s.sup.pc.WakeUp? && !s.sup.pc.WakeDown?))
  {}

  lemma IdleSilent(s: State, k: Choice)
    ensures Silent(s, SuperviseIdle(s, k))
  {
    IdleWrites(s, k);
    Appended(s.sup.log, Reset);
  }

  lemma SetupSilent(s: State, k: Choice)
    ensures Silent(s, SuperviseSetup(s, k))
  {}

  lemma EndSilent(timeout: nat, s: State, k: Choice)
    ensures Silent(s, SuperviseEnd(timeout, s, k))
  {
    Appended(s.sup.log, Reset);
  }

  lemma SuperviseDelivers(timeout: nat, s: State, k: Choice)
    requires EventsKept(s)
    ensures EventsKept(SuperviseStep(timeout, s, k))
  {
    RunDelivers(s, k);
    IdleSilent(s, k);
    SetupSilent(s, k);
    EndSilent(timeout, s, k);
    SilentDelivers(s, SuperviseIdle(s, k));
    SilentDelivers(s, SuperviseSetup(s, k));
    SilentDelivers(s, SuperviseEnd(timeout, s, k));
    OneOfTheParts(timeout, s, k);
  }

  lemma DispatchDelivers(s: State, ok: bool)
    requires EventsKept(s) && Enabled(s, Dispatch(ok))
    ensures EventsKept(DispatchStep(s, ok))
  {
    if s.ev.dispatcher == AtTop && !s.ev.stopped && s.ev.queue != [] {
      assert s.ev.delivered + s.ev.queue == s.ev.delivered + [s.ev.queue[0]] + s.ev.queue[1..];
    }
  }

  lemma CloseDelivers(s: State)
    requires EventsKept(s)
    ensures EventsKept(CloseStep(s))
  {}

  lemma StepDelivers(timeout: nat, s: State, step: Step)
    requires EventsKept(s) && Enabled(s, step)
    ensures EventsKept(Apply(timeout, s, step))
  {
    match step
    case Supervise(k) => SuperviseDelivers(timeout, s, k);
    case Dispatch(ok) => DispatchDelivers(s, ok);
    case Close => CloseDelivers(s);
    case _ =>
  }

  /** In every run the events handed to the callback are a prefix of those published, all of
      them but the queued ones unless delivery was stopped, and the dispatcher never sleeps
      through a wakeup. */
  lemma {:induction false} DeliveredIsPrefix(timeout: nat, states: seq<State>, steps: seq<Step>, i: nat)
    requires IsRun(timeout, states, steps) && i < |states|
    ensures EventsKept(states[i]) && states[i].ev.delivered <= Reported(states[i].sup.log)
  {
    if i != 0 {
      DeliveredIsPrefix(timeout, states, steps, i - 1);
      StepDelivers(timeout, states[i - 1], steps[i - 1]);
    }
  }

  lemma OverStep(timeout: nat, s: State, step: Step)
    requires Over(s.ev.dispatcher) && Enabled(s, step)
    ensures Over(Apply(timeout, s, step).ev.dispatcher) && Apply(timeout, s, step).ev.delivered == s.ev.delivered
  {
    if step.Supervise? {
      SuperviseLeavesDispatcher(timeout, s, step.choice);
    }
  }

  lemma SuperviseLeavesDispatcher(timeout: nat, s: State, k: Choice)
    ensures SuperviseStep(timeout, s, k).ev.dispatcher == s.ev.dispatcher
    ensures SuperviseStep(timeout, s, k).ev.delivered == s.ev.delivered
  {
    IdleSilent(s, k);
    SetupSilent(s, k);
    EndSilent(timeout, s, k);
    OneOfTheParts(timeout, s, k);
  }

  /** After a callback error the callback never runs again. */
  lemma {:induction false} NoCallbackAfterError(timeout: nat, states: seq<State>, steps: seq<Step>, i: nat, j: nat)
    requires IsRun(timeout, states, steps) && i <= j < |states| && Over(states[i].ev.dispatcher)
    ensures Over(states[j].ev.dispatcher) && states[j].ev.delivered == states[i].ev.delivered
    decreases j
  {
    if i < j {
      NoCallbackAfterError(timeout, states, steps, i, j - 1);
      OverStep(timeout, states[j - 1], steps[j - 1]);
    }
  }
}
