/** What the writer looked at before it wrote, and that it comes to an end once the outgoing queue
    is closed (data_packet_writer.go:20-43, session.go:226-231 and 280-297). */
module UploadProgress {
  import opened PacketQueue
  import PacketQueueRuns
  import opened UploadPath

  // ------------------------------------------------------------ before a write

  predicate WriterStep(step: Step) {
    || step.WriterPop? || step.WriterCheckClosed? || step.WriterCheckReady? || step.WriterWrite?
    || step.WriterCheckEmpty? || step.WriterAsk? || step.WriterWake? || step.WriterDrain?
  }

  /** The others leave the writer alone. */
  lemma OthersLeaveWriter(c: Session, s: State, step: Step)
    requires Enabled(s, step) && !WriterStep(step) && !step.Start?
    ensures Apply(c, s, step).writer == s.writer
  {}

  lemma EntersAwaiting(c: Session, s: State, step: Step)
    requires Enabled(s, step) && Apply(c, s, step).writer.AwaitingLock?
    ensures var s' := Apply(c, s, step);
            || s'.writer == s.writer
            || (step.WriterCheckReady? && s.ready && s.writer == CheckingReady(s'.writer.batch, s'.writer.number))
  {
    if !WriterStep(step) && !step.Start? {
      OthersLeaveWriter(c, s, step);
    }
  }

  lemma EntersChecking(c: Session, s: State, step: Step)
    requires Enabled(s, step) && Apply(c, s, step).writer.CheckingReady?
    ensures var s' := Apply(c, s, step);
            || s'.writer == s.writer
            || (step.WriterCheckClosed? && !s.q.closed
                && s.writer == CheckingClosed(s'.writer.batch, s'.writer.number))
  {
    if !WriterStep(step) && !step.Start? {
      OthersLeaveWriter(c, s, step);
    }
  }

  lemma EntersProbeLock(c: Session, s: State, step: Step)
    requires Enabled(s, step) && Apply(c, s, step).probe.ProbeLock?
    ensures var s' := Apply(c, s, step);
            || s'.probe == s.probe
            || (step.ProbeCheckReady? && s.ready && s.probe == ProbeReady(s'.probe.probe))
  {}

  /** The writer found the queue open when it looked at this batch. */
  ghost predicate FoundOpen(states: seq<State>, steps: seq<Step>, j: nat, batch: Batch, number: nat) {
    && j < |steps| && j < |states| && steps[j].WriterCheckClosed? && !states[j].q.closed
    && states[j].writer == CheckingClosed(batch, number)
  }

  /** The writer found the session ready when it looked at this batch. */
  ghost predicate FoundReady(states: seq<State>, steps: seq<Step>, j: nat, batch: Batch, number: nat) {
    && j < |steps| && j < |states| && steps[j].WriterCheckReady? && states[j].ready
    && states[j].writer == CheckingReady(batch, number)
  }

  lemma {:induction false} CheckingFoundOpen(
    c: Session, capacity: nat, states: seq<State>, steps: seq<Step>, i: nat) returns (j: nat)
    requires IsRun(c, capacity, states, steps) && i < |states| && states[i].writer.CheckingReady?
    ensures j < i && FoundOpen(states, steps, j, states[i].writer.batch, states[i].writer.number)
  {
    j := i - 1;
    EntersChecking(c, states[j], steps[j]);
    if states[j].writer == states[i].writer {
      j := CheckingFoundOpen(c, capacity, states, steps, j);
    }
  }

  lemma {:induction false} AwaitingFoundReady(
    c: Session, capacity: nat, states: seq<State>, steps: seq<Step>, i: nat) returns (j: nat)
    requires IsRun(c, capacity, states, steps) && i < |states| && states[i].writer.AwaitingLock?
    ensures j < i && FoundReady(states, steps, j, states[i].writer.batch, states[i].writer.number)
  {
    j := i - 1;
    EntersAwaiting(c, states[j], steps[j]);
    if states[j].writer == states[i].writer {
      j := AwaitingFoundReady(c, capacity, states, steps, j);
    }
  }

  /** In every run, before a batch is written the queue was found open and then the session ready,
      with this very batch in hand; one found otherwise is not written. */
  lemma WrittenWasReady(c: Session, capacity: nat, states: seq<State>, steps: seq<Step>, i: nat)
    returns (open: nat, ready: nat)
    requires IsRun(c, capacity, states, steps) && i < |steps| && steps[i].WriterWrite?
    ensures var w := states[i].writer;
            && w.AwaitingLock? && open < ready < i
            && FoundOpen(states, steps, open, w.batch, w.number) && FoundReady(states, steps, ready, w.batch, w.number)
  {
    ready := AwaitingFoundReady(c, capacity, states, steps, i);
    open := CheckingFoundOpen(c, capacity, states, steps, ready);
  }

  /** The same for a probe. */
  lemma {:induction false} ProbeWasReady(c: Session, capacity: nat, states: seq<State>, steps: seq<Step>, i: nat)
    returns (ready: nat)
    requires IsRun(c, capacity, states, steps) && i < |states| && states[i].probe.ProbeLock?
    ensures ready < i && steps[ready].ProbeCheckReady? && states[ready].ready
    ensures states[ready].probe == ProbeReady(states[i].probe.probe)
  {
    ready := i - 1;
    EntersProbeLock(c, states[ready], steps[ready]);
    if states[ready].probe == states[i].probe {
      ready := ProbeWasReady(c, capacity, states, steps, ready);
    }
  }

  lemma SentGrows(c: Session, s: State, step: Step)
    requires Enabled(s, step)
    ensures var s' := Apply(c, s, step);
            || s'.sent == s.sent
            || (step.WriterWrite? && s'.sent == s.sent + [SentBatch(s.writer.number)])
            || (step.ProbeWrite? && s'.sent == s.sent + [SentProbe(s.probe.probe.payload)])
  {
    match step
    case WriterWrite(_) =>
    case ProbeWrite(_) =>
    case _ => assert Apply(c, s, step).sent == s.sent;
  }

  /** In every run a batch that is in the stream was written at a step before which it was found
      ready. */
  lemma {:induction false} SentWasReady(
    c: Session, capacity: nat, states: seq<State>, steps: seq<Step>, i: nat, number: nat)
    returns (open: nat, ready: nat, write: nat)
    requires IsRun(c, capacity, states, steps) && i < |states| && SentBatch(number) in states[i].sent
    ensures open < ready < write < i && steps[write].WriterWrite?
    ensures exists batch ::
              FoundOpen(states, steps, open, batch, number) && FoundReady(states, steps, ready, batch, number)
  {
    var s := states[i - 1];
    SentGrows(c, s, steps[i - 1]);
    if SentBatch(number) in s.sent {
      open, ready, write := SentWasReady(c, capacity, states, steps, i - 1, number);
    } else {
      write := i - 1;
      open, ready := WrittenWasReady(c, capacity, states, steps, write);
    }
  }

  // --------------------------------------------------- the writer and the queue

  /** What the blocked writer waits for. */
  function Reading(w: Writer): PacketQueueRuns.Reader {
    if w.Blocked? then PacketQueueRuns.BlockedReader(w.channel) else PacketQueueRuns.Free
  }

  ghost predicate WriterSafe(s: State) {
    WellFormed(s.q) && PacketQueueRuns.ReaderSafe(s.q, Reading(s.writer))
  }

  lemma QueueCarries(c: Session, s: State, step: Step)
    requires WellFormed(s.q) && Enabled(s, step)
    ensures PacketQueueRuns.Carries(s.q, Apply(c, s, step).q)
    ensures step.WriterAsk? ==> PacketQueueRuns.ReaderSafe(Apply(c, s, step).q, Reading(Apply(c, s, step).writer))
  {
    match step
    case Enqueue(offered) => PacketQueueRuns.SectionsCarry(s.q, Make(offered, s.nextId), 0);
    case WriterPop => PacketQueueRuns.SectionsCarry(s.q, [], 0);
    case WriterAsk => PacketQueueRuns.SectionsCarry(s.q, [], 0);
    case WriterDrain => PacketQueueRuns.SectionsCarry(s.q, [], 0);
    case CloseQueue => PacketQueueRuns.SectionsCarry(s.q, [], 0);
    case CloseDrain => PacketQueueRuns.SectionsCarry(s.q, [], 0);
    case _ => assert Apply(c, s, step).q == s.q;
  }

  lemma WriterBlocksByAsking(c: Session, s: State, step: Step)
    requires Enabled(s, step)
    ensures var w := Apply(c, s, step).writer;
            w.Blocked? ==> w == s.writer || step.WriterAsk?
  {
    if !WriterStep(step) && !step.Start? {
      OthersLeaveWriter(c, s, step);
    }
  }

  lemma StepKeepsWriterSafe(c: Session, s: State, step: Step)
    requires WriterSafe(s) && Enabled(s, step)
    ensures WriterSafe(Apply(c, s, step))
  {
    var s' := Apply(c, s, step);
    QueueCarries(c, s, step);
    WriterBlocksByAsking(c, s, step);
    PacketQueueRuns.CarriesSafe(s.q, s'.q, PacketQueueRuns.Done(true), Reading(s.writer));
  }

  /** In every run of the session the writer never sleeps on packets or on a closed queue: blocked
      on a channel that has not been closed, it waits for an open and empty queue. */
  lemma {:induction false} WriterNeverStuck(
    c: Session, capacity: nat, states: seq<State>, steps: seq<Step>, i: nat)
    requires IsRun(c, capacity, states, steps) && i < |states|
    ensures WriterSafe(states[i])
    ensures states[i].writer.Blocked? && !Enabled(states[i], WriterWake) ==>
              states[i].q.contents == [] && !states[i].q.closed
  {
    if i != 0 {
      WriterNeverStuck(c, capacity, states, steps, i - 1);
      StepKeepsWriterSafe(c, states[i - 1], steps[i - 1]);
    }
  }

  // ---------------------------------------------------------------- the end

  /** How many steps the writer has left at most once the queue is closed. */
  function Left(s: State): nat {
    var backlog := if s.q.contents == [] then 0 else 2;
    match s.writer
    case NotStarted => 0
    case Exited => 0
    case Draining => 1 + backlog
    case FoundEmpty => 2 + backlog
    case Popping => 3 + backlog
    case CheckingClosed(_, _) => 4 + backlog
    case AwaitingLock(_, _) => 4 + backlog
    case Blocked(_) => 4 + backlog
    case CheckingReady(_, _) => 5 + backlog
    case Asking => 5 + backlog
  }

  lemma WriterNears(c: Session, s: State, step: Step)
    requires s.q.closed && Enabled(s, step) && WriterStep(step)
    ensures Left(Apply(c, s, step)) < Left(s) && Apply(c, s, step).q.closed
  {
    match step
    case WriterPop =>
    case WriterCheckClosed =>
    case WriterCheckReady =>
    case WriterWrite(_) =>
    case WriterCheckEmpty =>
    case WriterAsk =>
    case WriterWake =>
    case WriterDrain =>
  }

  lemma OthersDoNotDelay(c: Session, s: State, step: Step)
    requires s.q.closed && Enabled(s, step) && !WriterStep(step) && !step.Start?
    ensures Left(Apply(c, s, step)) <= Left(s) && Apply(c, s, step).q.closed
  {
    OthersLeaveWriter(c, s, step);
    match step
    case Enqueue(_) =>
    case ProbeWrite(_) =>
    case CloseQueue =>
    case CloseDrain =>
    case _ =>
  }

  /** The writer's steps among those from i up to j. */
  function Turns(steps: seq<Step>, i: nat, j: nat): nat
    requires i <= j <= |steps|
  {
    if i == j then 0 else Turns(steps, i, j - 1) + if WriterStep(steps[j - 1]) then 1 else 0
  }

  /** The next step of a writer that has not finished. */
  function NextOf(w: Writer): Step {
    match w
    case NotStarted => WriterPop
    case Popping => WriterPop
    case CheckingClosed(_, _) => WriterCheckClosed
    case CheckingReady(_, _) => WriterCheckReady
    case AwaitingLock(_, _) => WriterWrite(0)
    case FoundEmpty => WriterCheckEmpty
    case Asking => WriterAsk
    case Blocked(_) => WriterWake
    case Draining => WriterDrain
    case Exited => WriterPop
  }

  /** Once the queue is closed a writer that was started is never blocked, and has exited after at
      most seven further steps of its own, whatever the others do in between. */
  lemma {:induction false} WriterFinishes(
    c: Session, capacity: nat, states: seq<State>, steps: seq<Step>, i: nat, j: nat)
    requires IsRun(c, capacity, states, steps) && i <= j < |states|
    requires states[i].q.closed && !states[i].writer.NotStarted?
    ensures states[j].q.closed && !states[j].writer.NotStarted?
    ensures Turns(steps, i, j) + Left(states[j]) <= Left(states[i]) <= 7
    ensures states[j].writer.Exited? || Enabled(states[j], NextOf(states[j].writer))
    decreases j
  {
    if i < j {
      WriterFinishes(c, capacity, states, steps, i, j - 1);
      StepNears(c, states[j - 1], steps[j - 1]);
    }
    if !states[j].writer.Exited? {
      NotStuckWhenClosed(c, capacity, states, steps, j);
    }
  }

  lemma StepNears(c: Session, s: State, step: Step)
    requires s.q.closed && Enabled(s, step) && !s.writer.NotStarted?
    ensures var s' := Apply(c, s, step);
            && s'.q.closed && !s'.writer.NotStarted?
            && Left(s') + (if WriterStep(step) then 1 else 0) <= Left(s)
  {
    WriterStays(c, s, step);
    if WriterStep(step) {
      WriterNears(c, s, step);
    } else {
      OthersDoNotDelay(c, s, step);
    }
  }

  lemma NotStuckWhenClosed(c: Session, capacity: nat, states: seq<State>, steps: seq<Step>, i: nat)
    requires IsRun(c, capacity, states, steps) && i < |states| && states[i].q.closed
    requires !states[i].writer.NotStarted? && !states[i].writer.Exited?
    ensures Enabled(states[i], NextOf(states[i].writer))
  {
    WriterNeverStuck(c, capacity, states, steps, i);
  }

  lemma WriterStays(c: Session, s: State, step: Step)
    requires Enabled(s, step) && !s.writer.NotStarted?
    ensures !step.Start? && !Apply(c, s, step).writer.NotStarted?
  {}

  // ------------------------------------------------------------ after a failure

  /** A session that is being closed has failed; one that failed after it was started is not ready. */
  ghost predicate FailureShows(s: State) {
    (s.closer != NotClosing ==> s.failed) && (s.broken ==> s.failed)
  }

  lemma StepFailureShows(c: Session, s: State, step: Step)
    requires FailureShows(s) && Enabled(s, step)
    ensures FailureShows(Apply(c, s, step))
  {
    match step
    case WriterWrite(_) =>
    case ProbeWrite(_) =>
    case Fail =>
    case CloseMark =>
    case _ => assert Apply(c, s, step).failed == s.failed && Apply(c, s, step).broken == s.broken;
  }

  lemma {:induction false} RunFailureShows(c: Session, capacity: nat, states: seq<State>, steps: seq<Step>, i: nat)
    requires IsRun(c, capacity, states, steps) && i < |states|
    ensures FailureShows(states[i])
  {
    if i != 0 {
      RunFailureShows(c, capacity, states, steps, i - 1);
      StepFailureShows(c, states[i - 1], steps[i - 1]);
    }
  }

  /** Started, failed and not ready. */
  ghost predicate Down(s: State) {
    s.failed && !s.ready && !s.writer.NotStarted?
  }

  lemma StepStaysDown(c: Session, s: State, step: Step)
    requires Down(s) && Enabled(s, step)
    ensures Down(Apply(c, s, step))
  {
    WriterStays(c, s, step);
    match step
    case WriterWrite(_) =>
    case ProbeWrite(_) =>
    case Fail =>
    case CloseMark =>
    case _ => assert Apply(c, s, step).failed == s.failed && Apply(c, s, step).ready == s.ready;
  }

  lemma FailsDown(c: Session, s: State, step: Step)
    requires Enabled(s, step) && !s.writer.NotStarted? && !s.failed && Apply(c, s, step).failed
    ensures Down(Apply(c, s, step))
  {
    WriterStays(c, s, step);
    match step
    case WriterWrite(_) =>
    case ProbeWrite(_) =>
    case Fail =>
    case CloseMark =>
    case _ =>
  }

  /** In every run a session that fails after it was started is not ready from then on, so nothing
      more is found ready to be written. */
  lemma {:induction false} FailedStaysDown(
    c: Session, capacity: nat, states: seq<State>, steps: seq<Step>, i: nat, j: nat)
    requires IsRun(c, capacity, states, steps) && i < j < |states| && !states[i].writer.NotStarted?
    requires !states[i].failed && states[i + 1].failed
    ensures Down(states[j])
    decreases j
  {
    if i + 1 == j {
      FailsDown(c, states[i], steps[i]);
    } else {
      FailedStaysDown(c, capacity, states, steps, i, j - 1);
      StepStaysDown(c, states[j - 1], steps[j - 1]);
    }
  }

  lemma ProbeStaysStopped(c: Session, s: State, step: Step)
    requires s.probe.ProbeStopped? && Enabled(s, step)
    ensures Apply(c, s, step).probe.ProbeStopped?
  {}

  /** The step ends the probes: one found the session not ready, or its write failed. */
  ghost predicate EndsProbes(s: State, step: Step, s': State) {
    (step.ProbeCheckReady? && s.probe.ProbeReady? && !s.ready) || (step.ProbeWrite? && !s.broken && s'.broken)
  }

  lemma EndsProbesNow(c: Session, s: State, step: Step)
    requires Enabled(s, step) && EndsProbes(s, step, Apply(c, s, step))
    ensures Apply(c, s, step).probe.ProbeStopped?
  {}

  /** In every run no probe is built after one that was refused or could not be written. */
  lemma {:induction false} ProbesEnd(
    c: Session, capacity: nat, states: seq<State>, steps: seq<Step>, i: nat, j: nat)
    requires IsRun(c, capacity, states, steps) && i < j < |states| && EndsProbes(states[i], steps[i], states[i + 1])
    ensures states[j].probe.ProbeStopped?
    decreases j
  {
    if i + 1 == j {
      EndsProbesNow(c, states[i], steps[i]);
    } else {
      ProbesEnd(c, capacity, states, steps, i, j - 1);
      ProbeStaysStopped(c, states[j - 1], steps[j - 1]);
    }
  }
}
