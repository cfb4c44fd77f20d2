/** Every buffer handed to the client for sending is released exactly once. */
module UploadOwnership {
  import opened Wire
  import opened PacketQueue
  import opened UploadPath

  lemma {:induction false} TimesConcat(a: Batch, b: Batch, id: nat)
    ensures Times(a + b, id) == Times(a, id) + Times(b, id)
    decreases |b|
  {
    if b == [] {
      assert a + b == a;
    } else {
      var n := |b| - 1;
      TimesConcat(a, b[..n], id);
      assert (a + b)[..|a| + n] == a + b[..n];
    }
  }

  lemma TimesOne(b: Buffer, id: nat)
    ensures Times([b], id) == if b.id == id then 1 else 0
  {
    assert [b][..0] == [];
  }

  lemma TimesUpdate(batch: Batch, i: nat, b: Buffer, id: nat)
    requires i < |batch|
    ensures Times(batch[i := b], id) + Times([batch[i]], id) == Times(batch, id) + Times([b], id)
  {
    var front, back := batch[..i], batch[i + 1..];
    assert batch == front + [batch[i]] + back;
    assert batch[i := b] == front + [b] + back;
    TimesConcat(front + [batch[i]], back, id);
    TimesConcat(front + [b], back, id);
    TimesConcat(front, [batch[i]], id);
    TimesConcat(front, [b], id);
  }

  lemma {:induction false} TimesMake(offered: seq<(Bytes, bool)>, n: nat, id: nat)
    ensures Times(Make(offered, n), id) == if n <= id < n + |offered| then 1 else 0
    decreases |offered|
  {
    if offered != [] {
      var k := |offered| - 1;
      TimesMake(offered[..k], n, id);
      assert Make(offered, n)[..k] == Make(offered[..k], n);
    }
  }

  lemma {:induction false} TimesLeftConcat(a: seq<Batch>, b: seq<Batch>, id: nat)
    ensures TimesLeft(a + b, id) == TimesLeft(a, id) + TimesLeft(b, id)
    decreases |b|
  {
    if b == [] {
      assert a + b == a;
    } else {
      var n := |b| - 1;
      TimesLeftConcat(a, b[..n], id);
      assert (a + b)[..|a| + n] == a + b[..n];
    }
  }

  lemma TimesLeftOne(batch: Batch, id: nat)
    ensures TimesLeft([batch], id) == Times(batch, id)
  {
    assert [batch][..0] == [];
  }

  lemma TimesLeftRemove(ls: seq<Batch>, i: nat, id: nat)
    requires i < |ls|
    ensures TimesLeft(ls[..i] + ls[i + 1..], id) + Times(ls[i], id) == TimesLeft(ls, id)
  {
    assert ls == ls[..i] + [ls[i]] + ls[i + 1..];
    TimesLeftConcat(ls[..i] + [ls[i]], ls[i + 1..], id);
    TimesLeftConcat(ls[..i], [ls[i]], id);
    TimesLeftConcat(ls[..i], ls[i + 1..], id);
    TimesLeftOne(ls[i], id);
  }

  /** 1 for the buffers numbered lo up to hi, 0 for others. */
  function Among(lo: nat, hi: nat, id: nat): nat {
    if lo <= id < hi then 1 else 0
  }

  /** What framing the first n buffers of a batch has kept: each is still there, or replaced and
      released, and the later ones are untouched. */
  ghost predicate FramingKeeps(f: Framing, batch: Batch, n: nat, nextId: nat, id: nat) {
    && |f.batch| == |batch| && (forall k :: n <= k < |batch| ==> f.batch[k] == batch[k])
    && nextId <= f.nextId
    && Times(f.released, id) + Times(f.batch, id) == Times(batch, id) + Among(nextId, f.nextId, id)
  }

  lemma ReplaceKeeps(f: Framing, batch: Batch, n: nat, nextId: nat, id: nat, g: Framing)
    requires n < |batch| && FramingKeeps(f, batch, n, nextId, id)
    requires g.batch == f.batch[n := Buffer(f.nextId, batch[n].payload, true)]
    requires g.released == f.released + [batch[n]] && g.nextId == f.nextId + 1
    ensures FramingKeeps(g, batch, n + 1, nextId, id)
  {
    var b' := Buffer(f.nextId, batch[n].payload, true);
    TimesUpdate(f.batch, n, b', id);
    TimesOne(b', id);
    TimesConcat(f.released, [batch[n]], id);
  }

  lemma FrameNextKeeps(c: Session, f: Framing, batch: Batch, n: nat, nextId: nat, id: nat)
    requires n < |batch| && FramingKeeps(f, batch, n, nextId, id)
    ensures FramingKeeps(FrameNext(c, f, n, batch[n]), batch, n + 1, nextId, id)
  {
    if c.permits(batch[n].payload) && !batch[n].headroom {
      ReplaceKeeps(f, batch, n, nextId, id, FrameNext(c, f, n, batch[n]));
    }
  }

  lemma NoneFramed(batch: Batch, nextId: nat, id: nat)
    ensures FramingKeeps(Framing(batch, [], nextId, [], []), batch, 0, nextId, id)
  {}

  lemma FramedTurn(c: Session, batch: Batch, n: nat, nextId: nat, id: nat)
    requires n < |batch| && FramingKeeps(Framed(c, batch, n, nextId), batch, n, nextId, id)
    ensures FramingKeeps(Framed(c, batch, n + 1, nextId), batch, n + 1, nextId, id)
  {
    FrameNextKeeps(c, Framed(c, batch, n, nextId), batch, n, nextId, id);
  }

  /** Replacing buffers for headroom neither loses nor invents one. */
  lemma {:induction false} FramedTimes(c: Session, batch: Batch, n: nat, nextId: nat, id: nat)
    requires n <= |batch|
    ensures FramingKeeps(Framed(c, batch, n, nextId), batch, n, nextId, id)
  {
    if n == 0 {
      NoneFramed(batch, nextId, id);
    } else {
      FramedTimes(c, batch, n - 1, nextId, id);
      FramedTurn(c, batch, n - 1, nextId, id);
    }
  }

  /** After framing the permitted buffers have room for a header and carry their payload still, and
      the others are untouched. */
  lemma {:induction false} FramedBuffers(c: Session, batch: Batch, n: nat, nextId: nat)
    requires n <= |batch|
    ensures var f := Framed(c, batch, n, nextId);
            && (forall k :: 0 <= k < n && c.permits(batch[k].payload) ==>
                  f.batch[k].headroom && f.batch[k].payload == batch[k].payload)
            && (forall k :: 0 <= k < |batch| && (n <= k || !c.permits(batch[k].payload)) ==> f.batch[k] == batch[k])
  {
    if n != 0 {
      FramedBuffers(c, batch, n - 1, nextId);
    }
  }

  /** Handed over so far, and either released once or held once. */
  ghost predicate ConservedFor(s: State, id: nat) {
    Times(s.released, id) + Held(s, id) == Among(0, s.nextId, id)
  }

  /** What the write path does to ownership, whatever the outcome of the write. */
  ghost predicate Owns(s: State, s': State, f: Framing) {
    && s'.released == s.released + f.released + f.batch && s'.nextId == f.nextId
    && s'.q == s.q && s'.writer == s.writer && s'.probe == s.probe && s'.leftovers == s.leftovers
  }

  lemma WriteOwns(c: Session, s: State, batch: Batch, entry: Sent, wrote: nat)
    ensures Owns(s, Write(c, s, batch, entry, wrote), Framed(c, batch, |batch|, s.nextId))
  {}

  lemma OwnsConserves(s: State, s': State, f: Framing, batch: Batch, id: nat)
    requires Owns(s, s', f) && s.nextId <= f.nextId
    requires Times(f.released, id) + Times(f.batch, id) == Times(batch, id) + Among(s.nextId, f.nextId, id)
    requires Times(s.released, id) + Held(s, id) + Times(batch, id) == Among(0, s.nextId, id)
    ensures ConservedFor(s', id)
  {
    TimesConcat(s.released + f.released, f.batch, id);
    TimesConcat(s.released, f.released, id);
  }

  lemma WriteConserves(c: Session, s: State, batch: Batch, entry: Sent, wrote: nat, id: nat)
    requires Times(s.released, id) + Held(s, id) + Times(batch, id) == Among(0, s.nextId, id)
    ensures ConservedFor(Write(c, s, batch, entry, wrote), id)
  {
    FramedTimes(c, batch, |batch|, s.nextId, id);
    WriteOwns(c, s, batch, entry, wrote);
    OwnsConserves(s, Write(c, s, batch, entry, wrote), Framed(c, batch, |batch|, s.nextId), batch, id);
  }

  /** Held parts that move to another place, to the released ones, or in from a caller. */
  lemma Moves(s: State, s': State, added: Batch, id: nat)
    requires ConservedFor(s, id) && s'.released == s.released + added
    requires Times(added, id) + Held(s', id) + Among(0, s.nextId, id) == Held(s, id) + Among(0, s'.nextId, id)
    ensures ConservedFor(s', id)
  {
    TimesConcat(s.released, added, id);
  }

  lemma EnqueueEffect(c: Session, s: State, offered: seq<(Bytes, bool)>, batch: Batch, n: nat)
    requires batch == Make(offered, s.nextId) && n == Fitting(s.q, |batch|)
    ensures var s' := Apply(c, s, Enqueue(offered));
            && s'.q.contents == s.q.contents + batch[..n] && s'.leftovers == s.leftovers + [batch[n..]]
            && s'.released == s.released && s'.nextId == s.nextId + |offered|
            && s'.writer == s.writer && s'.probe == s.probe
  {}

  lemma SplitTimes(batch: Batch, n: nat, id: nat)
    requires n <= |batch|
    ensures Times(batch[..n], id) + Times(batch[n..], id) == Times(batch, id)
  {
    TimesConcat(batch[..n], batch[n..], id);
    assert batch[..n] + batch[n..] == batch;
  }

  lemma EnqueueConserves(c: Session, s: State, offered: seq<(Bytes, bool)>, id: nat)
    requires ConservedFor(s, id)
    ensures ConservedFor(Apply(c, s, Enqueue(offered)), id)
  {
    var batch := Make(offered, s.nextId);
    var n := Fitting(s.q, |batch|);
    EnqueueEffect(c, s, offered, batch, n);
    TimesMake(offered, s.nextId, id);
    SplitTimes(batch, n, id);
    TimesConcat(s.q.contents, batch[..n], id);
    TimesLeftConcat(s.leftovers, [batch[n..]], id);
    TimesLeftOne(batch[n..], id);
    Moves(s, Apply(c, s, Enqueue(offered)), [], id);
  }

  lemma RejectConserves(c: Session, s: State, offered: seq<(Bytes, bool)>, id: nat)
    requires ConservedFor(s, id)
    ensures ConservedFor(Apply(c, s, Reject(offered)), id)
  {
    TimesMake(offered, s.nextId, id);
    Moves(s, Apply(c, s, Reject(offered)), Make(offered, s.nextId), id);
  }

  lemma DropConserves(c: Session, s: State, i: nat, id: nat)
    requires ConservedFor(s, id) && i < |s.leftovers|
    ensures ConservedFor(Apply(c, s, DropLeftover(i)), id)
  {
    TimesLeftRemove(s.leftovers, i, id);
    Moves(s, Apply(c, s, DropLeftover(i)), s.leftovers[i], id);
  }

  lemma PopConserves(c: Session, s: State, id: nat)
    requires ConservedFor(s, id) && Enabled(s, WriterPop)
    ensures ConservedFor(Apply(c, s, WriterPop), id)
  {
    var s' := Apply(c, s, WriterPop);
    PopEffect(c, s);
    assert Held(s', id) == Held(s, id);
    Moves(s, s', [], id);
  }

  lemma PopEffect(c: Session, s: State)
    requires Enabled(s, WriterPop)
    ensures var s' := Apply(c, s, WriterPop);
            && s'.q.contents == [] && WriterBatch(s'.writer) == s.q.contents && WriterBatch(s.writer) == []
            && s'.probe == s.probe && s'.leftovers == s.leftovers && s'.released == s.released && s'.nextId == s.nextId
  {}

  lemma CheckConserves(c: Session, s: State, step: Step, id: nat)
    requires ConservedFor(s, id) && Enabled(s, step) && (step.WriterCheckClosed? || step.WriterCheckReady?)
    ensures ConservedFor(Apply(c, s, step), id)
  {
    var keeps := if step.WriterCheckClosed? then !s.q.closed else s.ready;
    Moves(s, Apply(c, s, step), if keeps then [] else s.writer.batch, id);
  }

  lemma DrainConserves(c: Session, s: State, step: Step, id: nat)
    requires ConservedFor(s, id) && Enabled(s, step) && (step.WriterDrain? || step.CloseDrain?)
    ensures ConservedFor(Apply(c, s, step), id)
  {
    Moves(s, Apply(c, s, step), s.q.contents, id);
  }

  predicate Quiet(step: Step) {
    || step.Start? || step.WriterCheckEmpty? || step.WriterAsk? || step.WriterWake? || step.StopProbe?
    || step.Fail? || step.CloseMark? || step.CloseQueue? || step.CloseWait?
  }

  /** Steps that touch no buffer. */
  lemma QuietConserves(c: Session, s: State, step: Step, id: nat)
    requires ConservedFor(s, id) && Enabled(s, step) && Quiet(step)
    ensures ConservedFor(Apply(c, s, step), id)
  {
    var s' := Apply(c, s, step);
    assert s'.q.contents == s.q.contents && s'.leftovers == s.leftovers && s'.released == s.released;
    assert s'.nextId == s.nextId;
    assert WriterBatch(s'.writer) == WriterBatch(s.writer);
    assert ProbeBatch(s'.probe) == ProbeBatch(s.probe);
  }

  lemma ProbeConserves(c: Session, s: State, step: Step, id: nat)
    requires ConservedFor(s, id) && Enabled(s, step) && (step.BuildProbe? || step.ProbeCheckReady?)
    ensures ConservedFor(Apply(c, s, step), id)
  {
    var s' := Apply(c, s, step);
    match step
    case BuildProbe(payload) =>
      TimesOne(Buffer(s.nextId, payload, true), id);
      Moves(s, s', [], id);
    case ProbeCheckReady => Moves(s, s', if s.ready then [] else [s.probe.probe], id);
  }

  lemma WritesConserve(c: Session, s: State, step: Step, id: nat)
    requires ConservedFor(s, id) && Enabled(s, step) && (step.WriterWrite? || step.ProbeWrite?)
    ensures ConservedFor(Apply(c, s, step), id)
  {
    if step.WriterWrite? {
      WriteConserves(c, s.(writer := Popping), s.writer.batch, SentBatch(s.writer.number), step.wrote, id);
    } else {
      var idle, p := s.(probe := ProbeIdle), s.probe.probe;
      WriteConserves(c, idle, [p], SentProbe(p.payload), step.wrote, id);
      WriteOwns(c, idle, [p], SentProbe(p.payload), step.wrote);
    }
  }

  lemma StepConserves(c: Session, s: State, step: Step, id: nat)
    requires ConservedFor(s, id) && Enabled(s, step)
    ensures ConservedFor(Apply(c, s, step), id)
  {
    if Quiet(step) {
      QuietConserves(c, s, step, id);
    } else {
      match step
      case Enqueue(offered) => EnqueueConserves(c, s, offered, id);
      case Reject(offered) => RejectConserves(c, s, offered, id);
      case DropLeftover(i) => DropConserves(c, s, i, id);
      case WriterWrite(_) => WritesConserve(c, s, step, id);
      case ProbeWrite(_) => WritesConserve(c, s, step, id);
      case BuildProbe(_) => ProbeConserves(c, s, step, id);
      case ProbeCheckReady => ProbeConserves(c, s, step, id);
      case WriterPop => PopConserves(c, s, id);
      case WriterCheckClosed => CheckConserves(c, s, step, id);
      case WriterCheckReady => CheckConserves(c, s, step, id);
      case WriterDrain => DrainConserves(c, s, step, id);
      case CloseDrain => DrainConserves(c, s, step, id);
    }
  }

  /** In every state of every run a buffer handed over is held in exactly one place or has been
      released exactly once, never both and never twice. */
  lemma {:induction false} ReleasedExactlyOnce(
    c: Session, capacity: nat, states: seq<State>, steps: seq<Step>, i: nat, id: nat)
    requires IsRun(c, capacity, states, steps) && i < |states|
    ensures Times(states[i].released, id) + Held(states[i], id) == if id < states[i].nextId then 1 else 0
  {
    if i != 0 {
      ReleasedExactlyOnce(c, capacity, states, steps, i - 1, id);
      StepConserves(c, states[i - 1], steps[i - 1], id);
    }
  }

  /** No goroutine of the session has work left. */
  predicate AtRest(s: State) {
    s.closer == Returned && (s.writer == NotStarted || s.writer == Exited) &&
    (s.probe == ProbeIdle || s.probe == ProbeStopped) && s.leftovers == []
  }

  // ----------------------------------------------------------- after Close

  /** Once `Close` has closed the queue it stays closed, and once it has drained it the queue
      stays empty. */
  ghost predicate ClosedDown(s: State) {
    && (s.closer == QueueClosed || s.closer == Waited || s.closer == Returned ==> s.q.closed)
    && (s.closer == Returned ==> s.q.contents == [])
  }

  lemma StepClosesDown(c: Session, s: State, step: Step)
    requires ClosedDown(s) && Enabled(s, step)
    ensures ClosedDown(Apply(c, s, step))
  {
    match step
    case WriterWrite(_) =>
    case ProbeWrite(_) =>
    case Enqueue(_) =>
    case WriterPop =>
    case WriterDrain =>
    case CloseDrain =>
    case _ =>
  }

  /** When session `Close` has returned the outgoing queue is closed and empty. */
  lemma {:induction false} RunClosesDown(c: Session, capacity: nat, states: seq<State>, steps: seq<Step>, i: nat)
    requires IsRun(c, capacity, states, steps) && i < |states|
    ensures ClosedDown(states[i])
  {
    if i != 0 {
      RunClosesDown(c, capacity, states, steps, i - 1);
      StepClosesDown(c, states[i - 1], steps[i - 1]);
    }
  }

  lemma StaysReturned(c: Session, s: State, step: Step)
    requires Enabled(s, step) && s.closer == Returned
    ensures Apply(c, s, step).closer == Returned
  {}

  lemma {:induction false} ReturnedForGood(
    c: Session, capacity: nat, states: seq<State>, steps: seq<Step>, i: nat, j: nat)
    requires IsRun(c, capacity, states, steps) && i <= j < |states| && states[i].closer == Returned
    ensures states[j].closer == Returned
    decreases j
  {
    if i < j {
      ReturnedForGood(c, capacity, states, steps, i, j - 1);
      StaysReturned(c, states[j - 1], steps[j - 1]);
    }
  }

  /** Once session `Close` has returned, the outgoing queue is empty in every later state. */
  lemma EmptyAfterClose(c: Session, capacity: nat, states: seq<State>, steps: seq<Step>, i: nat, j: nat)
    requires IsRun(c, capacity, states, steps) && i <= j < |states| && states[i].closer == Returned
    ensures states[j].q.contents == [] && states[j].q.closed
  {
    ReturnedForGood(c, capacity, states, steps, i, j);
    RunClosesDown(c, capacity, states, steps, j);
  }

  /** A session that is over has released every buffer exactly once and keeps none. */
  lemma AllReleasedAtRest(c: Session, capacity: nat, states: seq<State>, steps: seq<Step>, i: nat, id: nat)
    requires IsRun(c, capacity, states, steps) && i < |states| && AtRest(states[i])
    ensures Times(states[i].released, id) == if id < states[i].nextId then 1 else 0
  {
    ReleasedExactlyOnce(c, capacity, states, steps, i, id);
    RunClosesDown(c, capacity, states, steps, i);
  }
}
