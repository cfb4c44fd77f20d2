/** What the upload connection carries, until the first failed write: whole frames of exactly
    the permitted datagrams, in the order they were accepted, with probes only between batches. */
module UploadStream {
  import opened Wire
  import opened PacketQueue
  import opened UploadPath

  /** The permitted payloads of a batch, in order. */
  function Permitted(c: Session, batch: Batch): seq<Bytes> {
    if batch == [] then [] else
      var n := |batch| - 1;
      Permitted(c, batch[..n]) + if c.permits(batch[n].payload) then [batch[n].payload] else []
  }

  function Payloads(c: Session, popped: seq<Batch>, entry: Sent): seq<Bytes> {
    match entry
    case SentBatch(k) => if k < |popped| then Permitted(c, popped[k]) else []
    case SentProbe(p) => if c.permits(p) then [p] else []
  }

  /** The payloads of all uses of the write path, in order. */
  function Written(c: Session, popped: seq<Batch>, sent: seq<Sent>): seq<Bytes> {
    if sent == [] then [] else
      var n := |sent| - 1;
      Written(c, popped, sent[..n]) + Payloads(c, popped, sent[n])
  }

  /** Batch numbers below the bound. */
  ghost predicate Below(sent: seq<Sent>, bound: nat) {
    forall i :: 0 <= i < |sent| && sent[i].SentBatch? ==> sent[i].number < bound
  }

  /** Batches are written in the order they were popped, none twice. */
  ghost predicate InOrder(sent: seq<Sent>) {
    forall i, j :: 0 <= i < j < |sent| && sent[i].SentBatch? && sent[j].SentBatch? ==>
      sent[i].number < sent[j].number
  }

  ghost predicate Whole(c: Session, s: State) {
    !s.broken ==> s.stream == FrameAll(Written(c, s.popped, s.sent), c.encoding)
  }

  /** Popped batches followed by the queue are what was accepted. */
  ghost predicate Ordered(s: State) {
    Flatten(s.popped) + s.q.contents == s.accepted
  }

  /** The batch in the writer's hands is the one it popped, and no later one has been written. */
  ghost predicate HoldsBatch(s: State, batch: Batch, number: nat) {
    number < |s.popped| && s.popped[number] == batch && Below(s.sent, number)
  }

  ghost predicate WriterHolds(s: State) {
    Holding(s.writer) ==> HoldsBatch(s, s.writer.batch, s.writer.number)
  }

  ghost predicate Inv(c: Session, s: State) {
    Whole(c, s) && Ordered(s) && WriterHolds(s) && InOrder(s.sent) && Below(s.sent, |s.popped|)
  }

  lemma {:induction false} WrittenStable(c: Session, popped: seq<Batch>, batch: Batch, sent: seq<Sent>)
    requires Below(sent, |popped|)
    ensures Written(c, popped + [batch], sent) == Written(c, popped, sent)
    decreases |sent|
  {
    if sent != [] {
      var n := |sent| - 1;
      assert Below(sent[..n], |popped|);
      WrittenStable(c, popped, batch, sent[..n]);
      assert Payloads(c, popped + [batch], sent[n]) == Payloads(c, popped, sent[n]);
    }
  }

  lemma WrittenMore(c: Session, popped: seq<Batch>, sent: seq<Sent>, entry: Sent)
    ensures Written(c, popped, sent + [entry]) == Written(c, popped, sent) + Payloads(c, popped, entry)
  {
    assert (sent + [entry])[..|sent|] == sent;
  }

  /** The loop of the write path frames exactly the permitted payloads, in order. */
  lemma {:induction false} FramedPayloads(c: Session, batch: Batch, n: nat, nextId: nat)
    requires n <= |batch|
    ensures var f := Framed(c, batch, n, nextId);
            f.framed == Permitted(c, batch[..n]) && f.frames == FrameAll(f.framed, c.encoding)
  {
    if n != 0 {
      FramedPayloads(c, batch, n - 1, nextId);
      var f, p := Framed(c, batch, n - 1, nextId), batch[n - 1].payload;
      assert batch[..n][..n - 1] == batch[..n - 1];
      assert Permitted(c, batch[..n]) == Permitted(c, batch[..n - 1]) + if c.permits(p) then [p] else [];
      FrameAllConcat(f.framed, [p], c.encoding);
      OneFrame(p, c.encoding);
    }
  }

  lemma OneFrame(p: Bytes, e: Encoding)
    ensures FrameAll([p], e) == Frame(p, e)
  {
    FrameAllFirst([p], e);
    assert FrameAll([p][1..], e) == [];
  }

  /** What a use of the write path adds. */
  ghost predicate Adds(c: Session, s: State, s': State, entry: Sent) {
    && s'.popped == s.popped && s'.accepted == s.accepted && s'.q == s.q
    && (s'.broken || (s'.sent == s.sent + [entry] && (s'.broken <==> s.broken) &&
                      s'.stream == s.stream + FrameAll(Payloads(c, s.popped, entry), c.encoding)))
    && (s'.sent == s.sent || s'.sent == s.sent + [entry])
  }

  lemma FinishAdds(c: Session, s: State, f: Framing, entry: Sent, wrote: nat)
    requires f.frames == FrameAll(Payloads(c, s.popped, entry), c.encoding)
    ensures Adds(c, s, Finish(s, f, entry, wrote), entry)
  {}

  lemma WriteAdds(c: Session, s: State, batch: Batch, entry: Sent, wrote: nat)
    requires Permitted(c, batch) == Payloads(c, s.popped, entry)
    ensures Adds(c, s, Write(c, s, batch, entry, wrote), entry)
  {
    FramedPayloads(c, batch, |batch|, s.nextId);
    assert batch[..|batch|] == batch;
    FinishAdds(c, s, Framed(c, batch, |batch|, s.nextId), entry, wrote);
  }

  lemma SentKeepsOrder(sent: seq<Sent>, entry: Sent, bound: nat)
    requires InOrder(sent) && Below(sent, bound)
    requires entry.SentBatch? ==> entry.number < bound && Below(sent, entry.number)
    ensures InOrder(sent + [entry]) && Below(sent + [entry], bound)
  {}

  lemma AddsKeepsWhole(c: Session, s: State, s': State, entry: Sent)
    requires Whole(c, s) && Adds(c, s, s', entry)
    ensures Whole(c, s')
  {
    WrittenMore(c, s.popped, s.sent, entry);
    FrameAllConcat(Written(c, s.popped, s.sent), Payloads(c, s.popped, entry), c.encoding);
  }

  lemma AddsKeeps(c: Session, s: State, s': State, entry: Sent)
    requires Whole(c, s) && Ordered(s) && InOrder(s.sent) && Below(s.sent, |s.popped|) && Adds(c, s, s', entry)
    requires entry.SentBatch? ==> entry.number < |s.popped| && Below(s.sent, entry.number)
    ensures Whole(c, s') && Ordered(s') && InOrder(s'.sent) && Below(s'.sent, |s'.popped|)
  {
    AddsKeepsWhole(c, s, s', entry);
    SentKeepsOrder(s.sent, entry, |s.popped|);
  }

  lemma WriterWriteKeeps(c: Session, s: State, wrote: nat)
    requires Inv(c, s) && s.writer.AwaitingLock?
    ensures Inv(c, Apply(c, s, WriterWrite(wrote)))
  {
    var entry := SentBatch(s.writer.number);
    WriteAdds(c, s.(writer := Popping), s.writer.batch, entry, wrote);
    AddsKeeps(c, s.(writer := Popping), Apply(c, s, WriterWrite(wrote)), entry);
  }

  lemma PermittedOne(c: Session, b: Buffer)
    ensures Permitted(c, [b]) == if c.permits(b.payload) then [b.payload] else []
  {
    assert [b][..0] == [];
  }

  lemma ProbeLeavesWriter(s: State, s': State, entry: Sent)
    requires WriterHolds(s) && s'.writer == s.writer && s'.popped == s.popped
    requires entry.SentProbe? && (s'.sent == s.sent || s'.sent == s.sent + [entry])
    ensures WriterHolds(s')
  {}

  lemma ProbeWriteAdds(c: Session, s: State, wrote: nat, entry: Sent)
    requires s.probe.ProbeLock? && entry == SentProbe(s.probe.probe.payload)
    ensures var s' := Apply(c, s, ProbeWrite(wrote));
            Adds(c, s, s', entry) && s'.writer == s.writer && s'.popped == s.popped
  {
    PermittedOne(c, s.probe.probe);
    WriteAdds(c, s.(probe := ProbeIdle), [s.probe.probe], entry, wrote);
  }

  lemma ProbeWriteKeeps(c: Session, s: State, wrote: nat)
    requires Inv(c, s) && s.probe.ProbeLock?
    ensures Inv(c, Apply(c, s, ProbeWrite(wrote)))
  {
    var entry := SentProbe(s.probe.probe.payload);
    var s' := Apply(c, s, ProbeWrite(wrote));
    ProbeWriteAdds(c, s, wrote, entry);
    AddsKeeps(c, s, s', entry);
    ProbeLeavesWriter(s, s', entry);
  }

  /** Popping everything keeps the order, and later batches get higher numbers. */
  lemma TakeAllKeeps(c: Session, s: State)
    requires Inv(c, s)
    ensures var s' := TakeAll(s); Whole(c, s') && Ordered(s') && InOrder(s'.sent) && Below(s'.sent, |s.popped|)
  {
    WrittenStable(c, s.popped, s.q.contents, s.sent);
    FlattenConcat(s.popped, [s.q.contents]);
    assert Flatten([s.q.contents]) == s.q.contents + Flatten([s.q.contents][1..]);
    assert TakeAll(s).q.contents == [];
  }

  lemma TakingStepKeeps(c: Session, s: State, step: Step)
    requires Inv(c, s) && Enabled(s, step) && (step.WriterPop? || step.WriterDrain? || step.CloseDrain?)
    ensures Inv(c, Apply(c, s, step))
  {
    TakeAllKeeps(c, s);
    var s' := Apply(c, s, step);
    if step.WriterPop? && s.q.contents == [] {
      assert s'.popped == s.popped && s'.sent == s.sent;
    } else {
      assert s'.popped == s.popped + [s.q.contents] && s'.sent == s.sent;
      assert forall k :: 0 <= k < |s.popped| ==> s'.popped[k] == s.popped[k];
    }
  }

  lemma EnqueueKeeps(c: Session, s: State, offered: seq<(Bytes, bool)>)
    requires Inv(c, s)
    ensures Inv(c, Apply(c, s, Enqueue(offered)))
  {
    var batch := Make(offered, s.nextId);
    var front := batch[..Fitting(s.q, |batch|)];
    var s' := Apply(c, s, Enqueue(offered));
    assert s'.q.contents == s.q.contents + front && s'.accepted == s.accepted + front;
    assert Flatten(s.popped) + (s.q.contents + front) == Flatten(s.popped) + s.q.contents + front;
  }

  /** The other steps change neither what is queued nor what is written. */
  lemma OtherStepKeeps(c: Session, s: State, step: Step)
    requires Inv(c, s) && Enabled(s, step)
    requires !step.WriterPop? && !step.WriterDrain? && !step.CloseDrain?
    requires !step.WriterWrite? && !step.ProbeWrite? && !step.Enqueue?
    ensures Inv(c, Apply(c, s, step))
  {
    OtherStepLeaves(c, s, step);
  }

  /** The history and the queue are the same, and the writer holds what it held or nothing. */
  ghost predicate Leaves(s: State, s': State) {
    && s'.q.contents == s.q.contents && s'.popped == s.popped && s'.accepted == s.accepted
    && s'.sent == s.sent && s'.stream == s.stream && s'.broken == s.broken
    && (Holding(s'.writer) ==>
          Holding(s.writer) && s'.writer.batch == s.writer.batch && s'.writer.number == s.writer.number)
  }

  lemma OtherStepLeaves(c: Session, s: State, step: Step)
    requires Enabled(s, step)
    requires !step.WriterPop? && !step.WriterDrain? && !step.CloseDrain?
    requires !step.WriterWrite? && !step.ProbeWrite? && !step.Enqueue?
    ensures Leaves(s, Apply(c, s, step))
  {
    match step
    case WriterAsk =>
    case CloseQueue =>
    case _ =>
  }

  lemma StepKeeps(c: Session, s: State, step: Step)
    requires Inv(c, s) && Enabled(s, step)
    ensures Inv(c, Apply(c, s, step))
  {
    match step
    case WriterWrite(wrote) => WriterWriteKeeps(c, s, wrote);
    case ProbeWrite(wrote) => ProbeWriteKeeps(c, s, wrote);
    case Enqueue(offered) => EnqueueKeeps(c, s, offered);
    case WriterPop => TakingStepKeeps(c, s, step);
    case WriterDrain => TakingStepKeeps(c, s, step);
    case CloseDrain => TakingStepKeeps(c, s, step);
    case _ => OtherStepKeeps(c, s, step);
  }

  lemma {:induction false} RunKeeps(c: Session, capacity: nat, states: seq<State>, steps: seq<Step>, i: nat)
    requires IsRun(c, capacity, states, steps) && i < |states|
    ensures Inv(c, states[i])
  {
    if i == 0 {
      assert Frames([], c.encoding) == [];
    } else {
      RunKeeps(c, capacity, states, steps, i - 1);
      StepKeeps(c, states[i - 1], steps[i - 1]);
    }
  }

  /** In every state of every run before the first failed write, decoding the upload stream
      gives exactly the permitted payloads passed to the write path: the batches in the order
      they were popped, and those in the order they were accepted. */
  lemma StreamDecodes(c: Session, capacity: nat, states: seq<State>, steps: seq<Step>, i: nat)
    requires IsRun(c, capacity, states, steps) && i < |states| && !states[i].broken
    requires AllFit(Written(c, states[i].popped, states[i].sent))
    ensures var s := states[i];
            && ReadAll(s.stream, c.encoding) == Got(Written(c, s.popped, s.sent), [])
            && InOrder(s.sent) && Below(s.sent, |s.popped|)
            && Flatten(s.popped) + s.q.contents == s.accepted
  {
    RunKeeps(c, capacity, states, steps, i);
    StreamRoundTrip(Written(c, states[i].popped, states[i].sent), c.encoding);
  }
}
