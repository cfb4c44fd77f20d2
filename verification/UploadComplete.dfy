/** No accepted datagram is skipped: a popped batch that was neither written nor is in the
    writer's hands was given up at a definite step, and never while the session is healthy. */
module UploadComplete {
  import opened Wire
  import opened UploadPath
  import opened UploadOwnership
  import opened UploadStream

  /** The writer has the k-th popped batch in its hands. */
  predicate HoldsNumber(w: Writer, k: nat) {
    Holding(w) && w.number == k
  }

  predicate Accounted(s: State, k: nat) {
    k < |s.popped| ==> SentBatch(k) in s.sent || HoldsNumber(s.writer, k)
  }

  /** The step gives the k-th batch up: the queue is found closed, the session is found not ready,
      the connection takes only part of the frames, or the backlog of a closed queue is drained. */
  predicate GivesUp(s: State, step: Step, s': State, k: nat) {
    match step
    case WriterCheckClosed => HoldsNumber(s.writer, k) && s.q.closed
    case WriterCheckReady => HoldsNumber(s.writer, k) && !s.ready
    case WriterWrite(_) => HoldsNumber(s.writer, k) && s'.broken
    case WriterDrain => k == |s.popped| && s.q.closed
    case CloseDrain => k == |s.popped| && s.q.closed
    case _ => false
  }

  /** The queue is closed by the time anyone drains it. */
  ghost predicate DrainsClosed(s: State) {
    ClosedDown(s) && (s.writer == Draining ==> s.q.closed)
  }

  lemma StepDrainsClosed(c: Session, s: State, step: Step)
    requires DrainsClosed(s) && Enabled(s, step)
    ensures DrainsClosed(Apply(c, s, step))
  {
    StepClosesDown(c, s, step);
    if s.q.closed {
      StaysClosed(c, s, step);
    }
  }

  lemma StaysClosed(c: Session, s: State, step: Step)
    requires s.q.closed && Enabled(s, step)
    ensures Apply(c, s, step).q.closed
  {
    match step
    case Enqueue(_) =>
    case WriterPop =>
    case WriterWrite(_) =>
    case WriterAsk =>
    case WriterDrain =>
    case ProbeWrite(_) =>
    case CloseQueue =>
    case CloseDrain =>
    case _ => assert Apply(c, s, step).q == s.q;
  }

  lemma WriteAccounts(c: Session, s: State, wrote: nat, k: nat)
    requires s.writer.AwaitingLock? && Accounted(s, k)
    ensures var s' := Apply(c, s, WriterWrite(wrote));
            Accounted(s', k) || GivesUp(s, WriterWrite(wrote), s', k)
  {
    var s' := Apply(c, s, WriterWrite(wrote));
    if !s'.broken {
      assert s'.sent == s.sent + [SentBatch(s.writer.number)];
      assert SentBatch(s.writer.number) in s'.sent;
    }
  }

  lemma ProbeAccounts(c: Session, s: State, wrote: nat, k: nat)
    requires s.probe.ProbeLock? && Accounted(s, k)
    ensures Accounted(Apply(c, s, ProbeWrite(wrote)), k)
  {
    var s' := Apply(c, s, ProbeWrite(wrote));
    assert s'.sent == s.sent || s'.sent == s.sent + [SentProbe(s.probe.probe.payload)];
  }

  lemma StepAccounts(c: Session, s: State, step: Step, k: nat)
    requires DrainsClosed(s) && Enabled(s, step) && Accounted(s, k)
    ensures Accounted(Apply(c, s, step), k) || GivesUp(s, step, Apply(c, s, step), k)
  {
    match step
    case WriterWrite(wrote) => WriteAccounts(c, s, wrote, k);
    case ProbeWrite(wrote) => ProbeAccounts(c, s, wrote, k);
    case Enqueue(_) =>
    case WriterPop =>
    case WriterDrain =>
    case CloseDrain =>
    case _ => OtherStepLeaves(c, s, step);
  }

  lemma {:induction false} RunDrainsClosed(c: Session, capacity: nat, states: seq<State>, steps: seq<Step>, i: nat)
    requires IsRun(c, capacity, states, steps) && i < |states|
    ensures DrainsClosed(states[i])
  {
    if i != 0 {
      RunDrainsClosed(c, capacity, states, steps, i - 1);
      StepDrainsClosed(c, states[i - 1], steps[i - 1]);
    }
  }

  /** In every run, a popped batch that is not in the stream and not in the writer's hands was
      given up at a step for one of the four reasons. */
  lemma {:induction false} MissingBatch(
    c: Session, capacity: nat, states: seq<State>, steps: seq<Step>, i: nat, k: nat)
    returns (j: nat)
    requires IsRun(c, capacity, states, steps) && i < |states| && !Accounted(states[i], k)
    ensures j < i && GivesUp(states[j], steps[j], states[j + 1], k)
  {
    j := i - 1;
    if Accounted(states[j], k) {
      RunDrainsClosed(c, capacity, states, steps, j);
      StepAccounts(c, states[j], steps[j], k);
    } else {
      j := MissingBatch(c, capacity, states, steps, j, k);
    }
  }

  // ------------------------------------------------------- a healthy session

  predicate Healthy(s: State) {
    !s.failed && s.closer == NotClosing
  }

  /** A healthy session that was started is ready, and its queue is open. */
  ghost predicate StaysReady(s: State) {
    (s.broken ==> s.failed) && (Healthy(s) ==> !s.q.closed && (s.writer != NotStarted ==> s.ready))
  }

  /** The batch in the writer's hands is the one popped last. */
  ghost predicate HoldsLast(s: State) {
    Healthy(s) && Holding(s.writer) ==> s.writer.number + 1 == |s.popped|
  }

  ghost predicate Sound(s: State) {
    StaysReady(s) && HoldsLast(s)
  }

  lemma StepStaysReady(c: Session, s: State, step: Step)
    requires StaysReady(s) && Enabled(s, step)
    ensures StaysReady(Apply(c, s, step)) && (Healthy(Apply(c, s, step)) ==> Healthy(s))
  {
    match step
    case WriterWrite(_) =>
    case ProbeWrite(_) =>
    case Enqueue(_) =>
    case WriterPop =>
    case WriterDrain =>
    case CloseDrain =>
    case WriterAsk =>
    case CloseQueue =>
    case _ => assert Apply(c, s, step).q == s.q && Apply(c, s, step).broken == s.broken;
  }

  lemma StepHoldsLast(c: Session, s: State, step: Step)
    requires HoldsLast(s) && DrainsClosed(s) && Enabled(s, step)
    requires Healthy(Apply(c, s, step)) ==> Healthy(s)
    ensures HoldsLast(Apply(c, s, step))
  {
    match step
    case WriterWrite(_) =>
    case ProbeWrite(_) =>
    case Enqueue(_) =>
    case WriterPop =>
    case WriterDrain =>
    case CloseDrain =>
    case _ => OtherStepLeaves(c, s, step);
  }

  lemma StepSound(c: Session, s: State, step: Step)
    requires Sound(s) && DrainsClosed(s) && Enabled(s, step)
    ensures Sound(Apply(c, s, step)) && (Healthy(Apply(c, s, step)) ==> Healthy(s))
  {
    StepStaysReady(c, s, step);
    StepHoldsLast(c, s, step);
  }

  lemma HealthyKeepsAll(c: Session, s: State, step: Step, k: nat)
    requires Sound(s) && DrainsClosed(s) && Enabled(s, step) && Accounted(s, k)
    requires Healthy(Apply(c, s, step))
    ensures Accounted(Apply(c, s, step), k)
  {
    StepSound(c, s, step);
    StepAccounts(c, s, step, k);
  }

  lemma {:induction false} RunSound(c: Session, capacity: nat, states: seq<State>, steps: seq<Step>, i: nat)
    requires IsRun(c, capacity, states, steps) && i < |states|
    ensures Sound(states[i])
  {
    if i != 0 {
      RunSound(c, capacity, states, steps, i - 1);
      RunDrainsClosed(c, capacity, states, steps, i - 1);
      StepSound(c, states[i - 1], steps[i - 1]);
    }
  }

  lemma HealthyBefore(c: Session, s: State, step: Step)
    requires Sound(s) && Enabled(s, step) && Healthy(Apply(c, s, step))
    ensures Healthy(s)
  {
    StepStaysReady(c, s, step);
  }

  lemma {:induction false} HealthyAccounts(
    c: Session, capacity: nat, states: seq<State>, steps: seq<Step>, i: nat, k: nat)
    requires IsRun(c, capacity, states, steps) && i < |states| && Healthy(states[i])
    ensures Accounted(states[i], k)
  {
    if i != 0 {
      RunSound(c, capacity, states, steps, i - 1);
      RunDrainsClosed(c, capacity, states, steps, i - 1);
      HealthyBefore(c, states[i - 1], steps[i - 1]);
      HealthyAccounts(c, capacity, states, steps, i - 1, k);
      HealthyKeepsAll(c, states[i - 1], steps[i - 1], k);
    }
  }

  /** How many popped batches are out of the writer's hands. */
  function Done(s: State): nat {
    if Holding(s.writer) && s.popped != [] then |s.popped| - 1 else |s.popped|
  }

  lemma SentIffDone(s: State, k: nat)
    requires Sound(s) && Healthy(s) && WriterHolds(s) && Below(s.sent, |s.popped|) && Accounted(s, k)
    ensures SentBatch(k) in s.sent <==> k < Done(s)
  {
    if SentBatch(k) in s.sent {
      var j :| 0 <= j < |s.sent| && s.sent[j] == SentBatch(k);
      assert s.sent[j].number < |s.popped| && (Holding(s.writer) ==> s.sent[j].number < s.writer.number);
    }
  }

  lemma AcceptedSplits(s: State)
    requires Sound(s) && Healthy(s) && WriterHolds(s) && Ordered(s)
    ensures Flatten(s.popped[..Done(s)]) + WriterBatch(s.writer) + s.q.contents == s.accepted
  {
    if Holding(s.writer) {
      var n, batch := |s.popped| - 1, s.writer.batch;
      assert s.popped == s.popped[..n] + [batch];
      FlattenConcat(s.popped[..n], [batch]);
      assert Flatten([batch]) == batch + Flatten([batch][1..]);
    } else {
      assert s.popped[..|s.popped|] == s.popped;
    }
  }

  /** In every state of every run, as long as the session has not failed and is not being closed:
      every popped batch but the one in the writer's hands has been written, in order and once,
      and decoding the stream gives exactly their permitted payloads, with those of the probes
      between batches. Together with the batch in hand and the queue they are all that was
      accepted. */
  lemma NothingSkipped(c: Session, capacity: nat, states: seq<State>, steps: seq<Step>, i: nat)
    requires IsRun(c, capacity, states, steps) && i < |states| && Healthy(states[i])
    requires AllFit(Written(c, states[i].popped, states[i].sent))
    ensures var s := states[i];
            && (forall k: nat :: SentBatch(k) in s.sent <==> k < Done(s)) && InOrder(s.sent)
            && ReadAll(s.stream, c.encoding) == Got(Written(c, s.popped, s.sent), [])
            && Flatten(s.popped[..Done(s)]) + WriterBatch(s.writer) + s.q.contents == s.accepted
  {
    var s := states[i];
    RunSound(c, capacity, states, steps, i);
    StreamDecodes(c, capacity, states, steps, i);
    RunKeeps(c, capacity, states, steps, i);
    forall k: nat ensures SentBatch(k) in s.sent <==> k < Done(s) {
      HealthyAccounts(c, capacity, states, steps, i, k);
      SentIffDone(s, k);
    }
    AcceptedSplits(s);
  }
}
