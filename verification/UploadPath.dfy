/** The way of a datagram from the caller to the upload connection, over every interleaving of
    callers, the writer goroutine, the probe goroutine, `Fail`, `Start` and `Close`
    (client.go:283-293, data_packet_writer.go, session.go:148-161 and 226-297). */
module UploadPath {
  import opened Wire
  import opened PacketQueue

  /** A buffer by identity: its payload, and whether it has room in front for a frame header. */
  datatype Buffer = Buffer(id: nat, payload: Bytes, headroom: bool)
  type Batch = seq<Buffer>

  /** What does not change during a session: the filter and the payload encoding. */
  datatype Session = Session(permits: Bytes -> bool, encoding: Encoding)

  /** The writer goroutine between two critical sections. A batch carries its number among the
      batches popped. */
  datatype Writer =
    | NotStarted
    | Popping
    | CheckingClosed(batch: Batch, number: nat)
    | CheckingReady(batch: Batch, number: nat)
    | AwaitingLock(batch: Batch, number: nat)
    | FoundEmpty
    | Asking
    | Blocked(channel: nat)
    | Draining
    | Exited

  datatype Probe = ProbeIdle | ProbeReady(probe: Buffer) | ProbeLock(probe: Buffer) | ProbeStopped

  datatype Closer = NotClosing | MarkedClosed | QueueClosed | Waited | Returned

  /** One successful use of the write path: a popped batch by number, or a probe. */
  datatype Sent = SentBatch(number: nat) | SentProbe(payload: Bytes)

  datatype State = State(
    q: Queue<Buffer>, ready: bool, failed: bool, writer: Writer, probe: Probe, closer: Closer,
    leftovers: seq<Batch>,           // overflow a caller still has to release
    nextId: nat,                     // buffers 0..nextId have been handed over
    released: Batch,                 // every buffer given back, in order
    accepted: Batch, popped: seq<Batch>,
    stream: Bytes, sent: seq<Sent>, broken: bool)

  datatype Step =
    | Reject(offered: seq<(Bytes, bool)>)
    | Enqueue(offered: seq<(Bytes, bool)>)
    | DropLeftover(caller: nat)
    | Start
    | WriterPop | WriterCheckClosed | WriterCheckReady | WriterWrite(wrote: nat)
    | WriterCheckEmpty | WriterAsk | WriterWake | WriterDrain
    | BuildProbe(payload: Bytes) | ProbeCheckReady | ProbeWrite(wrote: nat) | StopProbe
    | Fail
    | CloseMark | CloseQueue | CloseWait | CloseDrain

  // ------------------------------------------------------------- ownership

  /** How often the buffer occurs in a batch. */
  function Times(batch: Batch, id: nat): nat {
    if batch == [] then 0
    else Times(batch[..|batch| - 1], id) + if batch[|batch| - 1].id == id then 1 else 0
  }

  function TimesLeft(leftovers: seq<Batch>, id: nat): nat {
    if leftovers == [] then 0
    else TimesLeft(leftovers[..|leftovers| - 1], id) + Times(leftovers[|leftovers| - 1], id)
  }

  /** The writer has a batch in its hands. */
  predicate Holding(w: Writer) {
    w.CheckingClosed? || w.CheckingReady? || w.AwaitingLock?
  }

  function WriterBatch(w: Writer): Batch {
    if Holding(w) then w.batch else []
  }

  function ProbeBatch(p: Probe): Batch {
    match p
    case ProbeReady(b) => [b]
    case ProbeLock(b) => [b]
    case _ => []
  }

  /** How often the buffer is held by the queue, the writer, the probe or a caller. */
  function Held(s: State, id: nat): nat {
    Times(s.q.contents, id) + Times(WriterBatch(s.writer), id) + Times(ProbeBatch(s.probe), id) +
    TimesLeft(s.leftovers, id)
  }

  /** The buffers handed over by a call, numbered from n. */
  function Make(offered: seq<(Bytes, bool)>, n: nat): Batch {
    seq(|offered|, i requires 0 <= i < |offered| => Buffer(n + i, offered[i].0, offered[i].1))
  }

  // --------------------------------------------------------------- framing

  /** The batch loop of `WriteDataPacketBuffers`: the batch with replaced buffers, what was
      released for them, the frames, and the payloads framed. */
  datatype Framing = Framing(batch: Batch, released: Batch, nextId: nat, frames: Bytes, framed: seq<Bytes>)

  /** What one turn of the loop, for the buffer at place n, makes of the framing so far. */
  function FrameNext(c: Session, f: Framing, n: nat, b: Buffer): (g: Framing)
    requires n < |f.batch|
    ensures |g.batch| == |f.batch|
  {
    if !c.permits(b.payload) then f
    else
      var g := f.(frames := f.frames + Frame(b.payload, c.encoding), framed := f.framed + [b.payload]);
      if b.headroom then g
      else g.(batch := f.batch[n := Buffer(f.nextId, b.payload, true)],
              released := f.released + [b], nextId := f.nextId + 1)
  }

  function Framed(c: Session, batch: Batch, n: nat, nextId: nat): (f: Framing)
    requires n <= |batch|
    ensures |f.batch| == |batch|
  {
    if n == 0 then Framing(batch, [], nextId, [], [])
    else FrameNext(c, Framed(c, batch, n - 1, nextId), n - 1, batch[n - 1])
  }

  /** session.go:233-242: permitted packets are framed in place, and one without headroom is
      replaced by a copy and released. */
  method FrameLoop(c: Session, batch: Batch, nextId: nat) returns (f: Framing)
    ensures f == Framed(c, batch, |batch|, nextId)
  {
    f := Framing(batch, [], nextId, [], []);
    for n := 0 to |batch|
      invariant f == Framed(c, batch, n, nextId)
    {
      var b := batch[n];
      if !c.permits(b.payload) {
        continue;
      }
      if !b.headroom {
        f := f.(batch := f.batch[n := Buffer(f.nextId, b.payload, true)],
                released := f.released + [b], nextId := f.nextId + 1);
      }
      f := f.(frames := f.frames + Frame(b.payload, c.encoding), framed := f.framed + [b.payload]);
    }
  }

  // ----------------------------------------------------------------- steps

  /** `Fail`: only the first call counts, even if the session has been started since. */
  function FailOnce(s: State): State {
    if s.failed then s else s.(ready := false, failed := true)
  }

  /** The effect of the write path once the batch is framed, with the lock held: `wrote` bytes
      reach the connection, the write fails unless that is all of them, and every buffer of the
      batch is released either way. */
  function Finish(s: State, f: Framing, entry: Sent, wrote: nat): State {
    var done := s.(nextId := f.nextId, released := s.released + f.released + f.batch);
    if f.frames == [] then done.(sent := s.sent + [entry])
    else if wrote >= |f.frames| then done.(stream := s.stream + f.frames, sent := s.sent + [entry])
    else FailOnce(done.(stream := s.stream + f.frames[..wrote], broken := true))
  }

  function Write(c: Session, s: State, batch: Batch, entry: Sent, wrote: nat): State {
    Finish(s, Framed(c, batch, |batch|, s.nextId), entry, wrote)
  }

  /** Everything is taken from the queue and noted as one batch. */
  function TakeAll(s: State): State {
    s.(q := PopInto(s.q, 0).0, popped := s.popped + [s.q.contents])
  }

  function Release(s: State, batch: Batch): State {
    s.(released := s.released + batch)
  }

  predicate Enabled(s: State, step: Step) {
    match step
    case DropLeftover(i) => i < |s.leftovers|
    case Start => s.writer == NotStarted
    case WriterPop => s.writer == Popping
    case WriterCheckClosed => s.writer.CheckingClosed?
    case WriterCheckReady => s.writer.CheckingReady?
    case WriterWrite(_) => s.writer.AwaitingLock?
    case WriterCheckEmpty => s.writer == FoundEmpty
    case WriterAsk => s.writer == Asking
    case WriterWake => s.writer.Blocked? && s.writer.channel < |s.q.signalled| && s.q.signalled[s.writer.channel]
    case WriterDrain => s.writer == Draining
    case BuildProbe(_) => s.probe == ProbeIdle && s.writer != NotStarted
    case ProbeCheckReady => s.probe.ProbeReady?
    case ProbeWrite(_) => s.probe.ProbeLock?
    case StopProbe => s.probe == ProbeIdle
    case CloseMark => s.closer == NotClosing
    case CloseQueue => s.closer == MarkedClosed
    case CloseWait => s.closer == QueueClosed && (s.writer == NotStarted || s.writer == Exited) &&
                      (s.probe == ProbeIdle || s.probe == ProbeStopped)
    case CloseDrain => s.closer == Waited
    case _ => true
  }

  function Apply(c: Session, s: State, step: Step): State
    requires Enabled(s, step)
  {
    match step
    case Reject(offered) =>
      Release(s.(nextId := s.nextId + |offered|), Make(offered, s.nextId))
    case Enqueue(offered) =>
      var batch := Make(offered, s.nextId);
      var n := Fitting(s.q, |batch|);
      s.(q := TryPushBatch(s.q, batch), nextId := s.nextId + |offered|,
         accepted := s.accepted + batch[..n], leftovers := s.leftovers + [batch[n..]])
    case DropLeftover(i) =>
      Release(s.(leftovers := s.leftovers[..i] + s.leftovers[i + 1..]), s.leftovers[i])
    case Start => s.(writer := Popping, ready := true)
    case WriterPop =>
      if s.q.contents == [] then s.(writer := FoundEmpty)
      else TakeAll(s).(writer := CheckingClosed(s.q.contents, |s.popped|))
    case WriterCheckClosed =>
      if s.q.closed then Release(s.(writer := Popping), s.writer.batch)
      else s.(writer := CheckingReady(s.writer.batch, s.writer.number))
    case WriterCheckReady =>
      if !s.ready then Release(s.(writer := Popping), s.writer.batch)
      else s.(writer := AwaitingLock(s.writer.batch, s.writer.number))
    case WriterWrite(wrote) =>
      Write(c, s.(writer := Popping), s.writer.batch, SentBatch(s.writer.number), wrote)
    case WriterCheckEmpty => s.(writer := if s.q.closed then Draining else Asking)
    case WriterAsk => s.(q := Wake(s.q).0, writer := Blocked(Wake(s.q).1))
    case WriterWake => s.(writer := Popping)
    case WriterDrain => Release(TakeAll(s).(writer := Exited), s.q.contents)
    case BuildProbe(payload) =>
      s.(probe := ProbeReady(Buffer(s.nextId, payload, true)), nextId := s.nextId + 1)
    case ProbeCheckReady =>
      if !s.ready then Release(s.(probe := ProbeStopped), [s.probe.probe]) else s.(probe := ProbeLock(s.probe.probe))
    case ProbeWrite(wrote) =>
      var probes := [s.probe.probe];
      var failed := wrote < |Framed(c, probes, |probes|, s.nextId).frames|;
      Write(c, s.(probe := ProbeIdle), probes, SentProbe(s.probe.probe.payload), wrote)
        .(probe := if failed then ProbeStopped else ProbeIdle)
    case StopProbe => s.(probe := ProbeStopped)
    case Fail => FailOnce(s)
    case CloseMark => FailOnce(s.(ready := false)).(closer := MarkedClosed)
    case CloseQueue => s.(q := Close(s.q), closer := QueueClosed)
    case CloseWait => s.(closer := Waited)
    case CloseDrain => Release(TakeAll(s).(closer := Returned), s.q.contents)
  }

  function Initial(capacity: nat): State {
    State(NewQueue(capacity), false, false, NotStarted, ProbeIdle, NotClosing, [], 0, [], [], [], [], [], false)
  }

  ghost predicate IsRun(c: Session, capacity: nat, states: seq<State>, steps: seq<Step>) {
    && |states| == |steps| + 1 && states[0] == Initial(capacity)
    && forall i {:trigger steps[i]} :: 0 <= i < |steps| ==>
         Enabled(states[i], steps[i]) && states[i + 1] == Apply(c, states[i], steps[i])
  }
}
