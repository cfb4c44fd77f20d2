/** Every interleaving of pushers, readers and `Close` over the packet queue: each critical
    section is one step, and a blocked goroutine resumes once its channel is closed. */
module PacketQueueRuns {
  import opened PacketQueue

  datatype Pusher<T> = Turn(item: T) | BlockedPusher(item: T, channel: nat) | Done(ok: bool)
  datatype Reader = Free | BlockedReader(channel: nat)

  datatype State<T> = State(
    q: Queue<T>, pushers: seq<Pusher<T>>, readers: seq<Reader>, accepted: seq<T>, popped: seq<T>)

  datatype Step<T> =
    | StartPush(item: T)
    | TakeTurn(pusher: nat)
    | WakePusher(pusher: nat)
    | CancelPush(pusher: nat)
    | PushBatch(items: seq<T>)
    | StartReader
    | Pop(maximum: int)
    | AskWake(reader: nat)
    | WakeReader(reader: nat)
    | CloseQueue

  ghost predicate Signalled<T>(q: Queue<T>, c: nat) {
    c < |q.signalled| && q.signalled[c]
  }

  ghost predicate Enabled<T>(s: State<T>, step: Step<T>) {
    match step
    case TakeTurn(p) => p < |s.pushers| && s.pushers[p].Turn?
    case WakePusher(p) => p < |s.pushers| && s.pushers[p].BlockedPusher? && Signalled(s.q, s.pushers[p].channel)
    case CancelPush(p) => p < |s.pushers| && !s.pushers[p].Done?
    case AskWake(r) => r < |s.readers| && s.readers[r].Free?
    case WakeReader(r) => r < |s.readers| && s.readers[r].BlockedReader? && Signalled(s.q, s.readers[r].channel)
    case _ => true
  }

  ghost function Apply<T>(s: State<T>, step: Step<T>): State<T>
    requires Enabled(s, step)
  {
    match step
    case StartPush(x) => s.(pushers := s.pushers + [Turn(x)])
    case TakeTurn(p) =>
      var (q, result) := PushTurn(s.q, s.pushers[p].item);
      var x := s.pushers[p].item;
      (match result
       case Refused => s.(q := q, pushers := s.pushers[p := Done(false)])
       case Accepted => s.(q := q, pushers := s.pushers[p := Done(true)], accepted := s.accepted + [x])
       case WaitFor(c) => s.(q := q, pushers := s.pushers[p := BlockedPusher(x, c)]))
    case WakePusher(p) => s.(pushers := s.pushers[p := Turn(s.pushers[p].item)])
    case CancelPush(p) => s.(pushers := s.pushers[p := Done(false)])
    case PushBatch(xs) =>
      s.(q := TryPushBatch(s.q, xs), accepted := s.accepted + xs[..Fitting(s.q, |xs|)])
    case StartReader => s.(readers := s.readers + [Free])
    case Pop(maximum) =>
      var (q, taken) := PopInto(s.q, maximum);
      s.(q := q, popped := s.popped + taken)
    case AskWake(r) =>
      var (q, c) := Wake(s.q);
      s.(q := q, readers := s.readers[r := BlockedReader(c)])
    case WakeReader(r) => s.(readers := s.readers[r := Free])
    case CloseQueue => s.(q := Close(s.q))
  }

  function Initial<T>(capacity: nat): State<T> {
    State(NewQueue(capacity), [], [], [], [])
  }

  /** `states[i + 1]` is the result of `steps[i]`. */
  ghost predicate IsRun<T>(capacity: nat, states: seq<State<T>>, steps: seq<Step<T>>) {
    && |states| == |steps| + 1 && states[0] == Initial(capacity)
    && forall i {:trigger steps[i]} :: 0 <= i < |steps| ==>
         Enabled(states[i], steps[i]) && states[i + 1] == Apply(states[i], steps[i])
  }

  /** A blocked pusher is about to wake, or the queue is full and open. */
  ghost predicate PusherSafe<T>(q: Queue<T>, p: Pusher<T>) {
    p.BlockedPusher? ==>
      p.channel < |q.signalled| &&
      (q.signalled[p.channel] || (q.notFull == Waiting(p.channel) && |q.contents| == q.capacity && !q.closed))
  }

  /** A blocked reader is about to wake, or the queue is empty and open. */
  ghost predicate ReaderSafe<T>(q: Queue<T>, r: Reader) {
    r.BlockedReader? ==>
      r.channel < |q.signalled| &&
      (q.signalled[r.channel] || (q.notEmpty == Waiting(r.channel) && q.contents == [] && !q.closed))
  }

  ghost predicate NoLostWakeup<T>(s: State<T>) {
    && (forall i :: 0 <= i < |s.pushers| ==> PusherSafe(s.q, s.pushers[i]))
    && (forall i :: 0 <= i < |s.readers| ==> ReaderSafe(s.q, s.readers[i]))
  }

  ghost predicate Fifo<T>(s: State<T>) {
    s.popped + s.q.contents == s.accepted
  }

  ghost predicate Inv<T>(s: State<T>) {
    WellFormed(s.q) && NoLostWakeup(s) && Fifo(s)
  }

  /** A goroutine blocked on a channel keeps waiting for it, or the channel has been closed. */
  ghost predicate Carries<T>(q: Queue<T>, q': Queue<T>) {
    && WellFormed(q') && Later(q.signalled, q'.signalled) && q'.capacity == q.capacity
    && (q.notFull.Waiting? ==> q'.notFull == q.notFull || Signalled(q', q.notFull.channel))
    && (q.notEmpty.Waiting? ==> q'.notEmpty == q.notEmpty || Signalled(q', q.notEmpty.channel))
  }

  lemma CarriesSafe<T>(q: Queue<T>, q': Queue<T>, p: Pusher<T>, r: Reader)
    requires WellFormed(q) && Carries(q, q')
    ensures PusherSafe(q, p) ==> PusherSafe(q', p)
    ensures ReaderSafe(q, r) ==> ReaderSafe(q', r)
  {}

  lemma CarriesAll<T>(s: State<T>, q': Queue<T>)
    requires WellFormed(s.q) && NoLostWakeup(s) && Carries(s.q, q')
    ensures NoLostWakeup(s.(q := q'))
  {
    forall i | 0 <= i < |s.pushers| ensures PusherSafe(q', s.pushers[i]) {
      CarriesSafe(s.q, q', s.pushers[i], Free);
    }
    forall i | 0 <= i < |s.readers| ensures ReaderSafe(q', s.readers[i]) {
      CarriesSafe(s.q, q', Done(true), s.readers[i]);
    }
  }

  lemma SectionsCarry<T>(q: Queue<T>, xs: seq<T>, maximum: int)
    requires WellFormed(q)
    ensures Carries(q, TryPushBatch(q, xs)) && Carries(q, PopInto(q, maximum).0)
    ensures Carries(q, Wake(q).0) && Carries(q, Close(q))
    ensures ReaderSafe(Wake(q).0, BlockedReader(Wake(q).1))
  {
    BatchKeeps(q, xs);
    PopKeeps(q, maximum);
    WakeKeeps(q);
    CloseKeeps(q);
  }

  lemma PushTurnCarries<T>(q: Queue<T>, x: T)
    requires WellFormed(q)
    ensures Carries(q, PushTurn(q, x).0)
    ensures PushTurn(q, x).1.WaitFor? ==> PusherSafe(PushTurn(q, x).0, BlockedPusher(x, PushTurn(q, x).1.channel))
    ensures PushTurn(q, x).0.contents == if PushTurn(q, x).1.Accepted? then q.contents + [x] else q.contents
  {
    PushTurnKeeps(q, x);
  }

  lemma StepCarries<T>(s: State<T>, step: Step<T>)
    requires Inv(s) && Enabled(s, step)
    ensures Carries(s.q, Apply(s, step).q)
  {
    match step
    case TakeTurn(p) => PushTurnCarries(s.q, s.pushers[p].item);
    case PushBatch(xs) => SectionsCarry(s.q, xs, 0);
    case Pop(maximum) => SectionsCarry(s.q, [], maximum);
    case _ => SectionsCarry(s.q, [], 0);
  }

  lemma StepKeepsFifo<T>(s: State<T>, step: Step<T>)
    requires Inv(s) && Enabled(s, step)
    ensures Fifo(Apply(s, step))
  {
    match step
    case TakeTurn(p) => PushTurnCarries(s.q, s.pushers[p].item);
    case Pop(maximum) =>
      var n := Taking(s.q, maximum);
      assert s.q.contents == s.q.contents[..n] + s.q.contents[n..];
    case _ =>
  }

  lemma StepKeepsInv<T>(s: State<T>, step: Step<T>)
    requires Inv(s) && Enabled(s, step)
    ensures Inv(Apply(s, step))
  {
    var s' := Apply(s, step);
    StepKeepsFifo(s, step);
    StepCarries(s, step);
    CarriesAll(s, s'.q);
    match step
    case TakeTurn(p) => PushTurnCarries(s.q, s.pushers[p].item);
    case AskWake(r) => SectionsCarry(s.q, [], 0);
    case _ =>
  }

  /** Over every run: the queue is a bounded FIFO and no wakeup is lost. */
  lemma {:induction false} RunKeepsInv<T>(capacity: nat, states: seq<State<T>>, steps: seq<Step<T>>, i: nat)
    requires IsRun(capacity, states, steps) && i < |states|
    ensures Inv(states[i]) && states[i].q.capacity == capacity
  {
    if i != 0 {
      RunKeepsInv(capacity, states, steps, i - 1);
      StepKeepsInv(states[i - 1], steps[i - 1]);
      StepCarries(states[i - 1], steps[i - 1]);
    }
  }

  /** What was popped followed by what is queued is what was accepted; the length stays within
      the capacity; a blocked pusher or reader has a false condition or a closed channel. */
  lemma QueueRefinesBoundedFifo<T>(capacity: nat, states: seq<State<T>>, steps: seq<Step<T>>, i: nat)
    requires IsRun(capacity, states, steps) && i < |states|
    ensures var s := states[i];
            && s.popped + s.q.contents == s.accepted && |s.q.contents| <= capacity
            && (forall p :: 0 <= p < |s.pushers| && s.pushers[p].BlockedPusher? ==>
                  Signalled(s.q, s.pushers[p].channel) || (|s.q.contents| == capacity && !s.q.closed))
            && (forall r :: 0 <= r < |s.readers| && s.readers[r].BlockedReader? ==>
                  Signalled(s.q, s.readers[r].channel) || (s.q.contents == [] && !s.q.closed))
  {
    RunKeepsInv(capacity, states, steps, i);
    var s := states[i];
    forall p | 0 <= p < |s.pushers| && s.pushers[p].BlockedPusher?
      ensures Signalled(s.q, s.pushers[p].channel) || (|s.q.contents| == capacity && !s.q.closed)
    {
      assert PusherSafe(s.q, s.pushers[p]);
    }
    forall r | 0 <= r < |s.readers| && s.readers[r].BlockedReader?
      ensures Signalled(s.q, s.readers[r].channel) || (s.q.contents == [] && !s.q.closed)
    {
      assert ReaderSafe(s.q, s.readers[r]);
    }
  }

  // ------------------------------------------------- the answers of Push

  /** The step answers the push with its item accepted. */
  ghost predicate AcceptsPush<T>(s: State<T>, step: Step<T>, s': State<T>, p: nat) {
    step == TakeTurn(p) && p < |s.pushers| && s.pushers[p].Turn? && !s.q.closed && |s.q.contents| < s.q.capacity &&
    s'.accepted == s.accepted + [s.pushers[p].item]
  }

  /** The step answers the push with a refusal: its context is cancelled, or the queue closed. */
  ghost predicate RefusesPush<T>(s: State<T>, step: Step<T>, s': State<T>, p: nat) {
    (step == CancelPush(p) || (step == TakeTurn(p) && s.q.closed)) && s'.accepted == s.accepted
  }

  lemma PushStep<T>(s: State<T>, step: Step<T>, p: nat)
    requires WellFormed(s.q) && Enabled(s, step)
    requires p < |Apply(s, step).pushers| && Apply(s, step).pushers[p].Done?
    ensures var s' := Apply(s, step);
            || (p < |s.pushers| && s.pushers[p] == s'.pushers[p])
            || (if s'.pushers[p].ok then AcceptsPush(s, step, s', p) else RefusesPush(s, step, s', p))
  {
    if step.TakeTurn? {
      PushTurnDecides(s.q, s.pushers[step.pusher].item);
    }
  }

  /** In every run a push that has returned true had its item accepted by an open queue with room,
      and one that has returned false was cancelled or found the queue closed: a full queue never
      refuses an item. */
  lemma {:induction false} PushAnswered<T>(
    capacity: nat, states: seq<State<T>>, steps: seq<Step<T>>, i: nat, p: nat)
    returns (j: nat)
    requires IsRun(capacity, states, steps) && i < |states|
    requires p < |states[i].pushers| && states[i].pushers[p].Done?
    ensures j < i
    ensures if states[i].pushers[p].ok then AcceptsPush(states[j], steps[j], states[j + 1], p)
            else RefusesPush(states[j], steps[j], states[j + 1], p)
  {
    j := i - 1;
    RunKeepsInv(capacity, states, steps, j);
    PushStep(states[j], steps[j], p);
    if p < |states[j].pushers| && states[j].pushers[p] == states[i].pushers[p] {
      j := PushAnswered(capacity, states, steps, j, p);
    }
  }

  /** Nothing is accepted but by such answers and by batches. */
  lemma AcceptedStep<T>(s: State<T>, step: Step<T>)
    requires WellFormed(s.q) && Enabled(s, step)
    ensures var s' := Apply(s, step);
            || s'.accepted == s.accepted
            || (step.TakeTurn? && AcceptsPush(s, step, s', step.pusher) && s'.pushers[step.pusher] == Done(true))
            || (step.PushBatch? && exists n :: 0 < n <= |step.items| && s'.accepted == s.accepted + step.items[..n])
  {
    match step
    case TakeTurn(p) => PushTurnDecides(s.q, s.pushers[p].item);
    case PushBatch(xs) =>
      var n := Fitting(s.q, |xs|);
      if n == 0 {
        assert xs[..n] == [];
      }
    case _ =>
  }

  lemma ClosedStep<T>(s: State<T>, step: Step<T>)
    requires s.q.closed && Enabled(s, step)
    ensures var s' := Apply(s, step); s'.q.closed && s'.accepted == s.accepted && s.popped <= s'.popped
  {}

  /** Nothing is accepted once the queue is closed, and what had been accepted stays to be
      popped: one more `Pop` hands out all that is missing. */
  lemma {:induction false} ClosedForGood<T>(capacity: nat, states: seq<State<T>>, steps: seq<Step<T>>, i: nat, j: nat)
    requires IsRun(capacity, states, steps) && i <= j < |states| && states[i].q.closed
    ensures states[j].q.closed && states[j].accepted == states[i].accepted && states[i].popped <= states[j].popped
    ensures states[j].popped + PopInto(states[j].q, 0).1 == states[i].accepted
    decreases j
  {
    RunKeepsInv(capacity, states, steps, j);
    assert states[j].q.contents[..|states[j].q.contents|] == states[j].q.contents;
    if i < j {
      ClosedForGood(capacity, states, steps, i, j - 1);
      ClosedStep(states[j - 1], steps[j - 1]);
    }
  }
}
