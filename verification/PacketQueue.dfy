/** The bounded packet queue (data_packet_queue.go): its critical sections over a contents
    sequence, and the ring array that implements them. A channel that is closed to signal is a
    number; `signalled` says of every channel made so far whether it has been closed. */
module PacketQueue {

  datatype Waiting = Nobody | Waiting(channel: nat)

  datatype Queue<T> = Queue(capacity: nat, contents: seq<T>, closed: bool,
                            notEmpty: Waiting, notFull: Waiting, signalled: seq<bool>)

  /** The channel closed from the start, `alreadySignalled`. */
  const ALREADY: nat := 0

  // -------------------------------------------------------- critical sections

  /** `signalLocked` on a signal: its channel, if any, is closed and forgotten. */
  function Closing(signalled: seq<bool>, w: Waiting): seq<bool> {
    if w.Waiting? && w.channel < |signalled| then signalled[w.channel := true] else signalled
  }

  function SignalNotEmpty<T>(q: Queue<T>): Queue<T> {
    q.(notEmpty := Nobody, signalled := Closing(q.signalled, q.notEmpty))
  }

  function SignalNotFull<T>(q: Queue<T>): Queue<T> {
    q.(notFull := Nobody, signalled := Closing(q.signalled, q.notFull))
  }

  /** How many items of a batch fit. */
  function Fitting<T>(q: Queue<T>, offered: nat): nat {
    if q.closed || q.capacity <= |q.contents| then 0
    else if offered < q.capacity - |q.contents| then offered else q.capacity - |q.contents|
  }

  function TryPushBatch<T>(q: Queue<T>, xs: seq<T>): Queue<T> {
    var n := Fitting(q, |xs|);
    var q' := q.(contents := q.contents + xs[..n]);
    if 0 < n && q.contents == [] then SignalNotEmpty(q') else q'
  }

  datatype PushResult = Refused | Accepted | WaitFor(channel: nat)

  /** One turn of the loop of `Push` under the lock. */
  function PushTurn<T>(q: Queue<T>, x: T): (Queue<T>, PushResult) {
    if q.closed then (q, Refused)
    else if |q.contents| < q.capacity then (TryPushBatch(q, [x]), Accepted)
    else if q.notFull.Waiting? then (q, WaitFor(q.notFull.channel))
    else (q.(notFull := Waiting(|q.signalled|), signalled := q.signalled + [false]), WaitFor(|q.signalled|))
  }

  /** How many items `PopInto` takes: all of them unless a positive maximum says fewer. */
  function Taking<T>(q: Queue<T>, maximum: int): nat {
    if 0 < maximum < |q.contents| then maximum else |q.contents|
  }

  function PopInto<T>(q: Queue<T>, maximum: int): (Queue<T>, seq<T>) {
    var n := Taking(q, maximum);
    if n == 0 then (q, [])
    else (SignalNotFull(q.(contents := q.contents[n..])), q.contents[..n])
  }

  function Wake<T>(q: Queue<T>): (Queue<T>, nat) {
    if q.contents != [] || q.closed then (q, ALREADY)
    else if q.notEmpty.Waiting? then (q, q.notEmpty.channel)
    else (q.(notEmpty := Waiting(|q.signalled|), signalled := q.signalled + [false]), |q.signalled|)
  }

  function Close<T>(q: Queue<T>): Queue<T> {
    if q.closed then q else SignalNotFull(SignalNotEmpty(q.(closed := true)))
  }

  function NewQueue<T>(capacity: nat): Queue<T> {
    Queue(capacity, [], false, Nobody, Nobody, [true])
  }

  // ------------------------------------------------------------- invariant

  /** A channel that is waited on is open, and its condition is false for as long as it is. */
  ghost predicate Live(signalled: seq<bool>, w: Waiting, conditionFalse: bool) {
    w.Waiting? ==> 0 < w.channel < |signalled| && !signalled[w.channel] && conditionFalse
  }

  ghost predicate WellFormed<T>(q: Queue<T>) {
    && |q.contents| <= q.capacity
    && 0 < |q.signalled| && q.signalled[ALREADY]
    && Live(q.signalled, q.notEmpty, q.contents == [] && !q.closed)
    && Live(q.signalled, q.notFull, |q.contents| == q.capacity && !q.closed)
    && (q.notEmpty.Waiting? && q.notFull.Waiting? ==> q.notEmpty.channel != q.notFull.channel)
    && forall c :: 0 <= c < |q.signalled| && !q.signalled[c] ==> q.notEmpty == Waiting(c) || q.notFull == Waiting(c)
  }

  /** Channels are only ever added or closed. */
  ghost predicate Later(before: seq<bool>, after: seq<bool>) {
    |before| <= |after| && forall c :: 0 <= c < |before| && before[c] ==> after[c]
  }

  lemma BatchKeeps<T>(q: Queue<T>, xs: seq<T>)
    requires WellFormed(q)
    ensures WellFormed(TryPushBatch(q, xs)) && Later(q.signalled, TryPushBatch(q, xs).signalled)
  {}

  lemma PushTurnKeeps<T>(q: Queue<T>, x: T)
    requires WellFormed(q)
    ensures WellFormed(PushTurn(q, x).0) && Later(q.signalled, PushTurn(q, x).0.signalled)
  {}

  lemma PopKeeps<T>(q: Queue<T>, maximum: int)
    requires WellFormed(q)
    ensures WellFormed(PopInto(q, maximum).0) && Later(q.signalled, PopInto(q, maximum).0.signalled)
  {}

  lemma WakeKeeps<T>(q: Queue<T>)
    requires WellFormed(q)
    ensures WellFormed(Wake(q).0) && Later(q.signalled, Wake(q).0.signalled)
  {}

  lemma CloseKeeps<T>(q: Queue<T>)
    requires WellFormed(q)
    ensures WellFormed(Close(q)) && Later(q.signalled, Close(q).signalled)
  {}

  // ----------------------------------------- what the sections decide

  /** A push is refused only by a closed queue, accepted whenever an open one has room, and waits
      for an open channel otherwise. */
  lemma PushTurnDecides<T>(q: Queue<T>, x: T)
    requires WellFormed(q)
    ensures var (q', result) := PushTurn(q, x);
            && (result.Refused? <==> q.closed)
            && (result.Accepted? <==> !q.closed && |q.contents| < q.capacity)
            && q'.contents == (if result.Accepted? then q.contents + [x] else q.contents)
            && (result.WaitFor? ==> result.channel < |q'.signalled| && !q'.signalled[result.channel])
            && q'.closed == q.closed && q'.capacity == q.capacity
  {}

  /** Of a batch an open queue accepts as much as there is room for, from the front; a closed one
      accepts nothing. */
  lemma BatchDecides<T>(q: Queue<T>, xs: seq<T>)
    requires WellFormed(q)
    ensures var n := |TryPushBatch(q, xs).contents| - |q.contents|;
            && 0 <= n <= |xs| && TryPushBatch(q, xs).contents == q.contents + xs[..n]
            && (q.closed ==> n == 0)
            && (!q.closed ==> n == |xs| || |q.contents| + n == q.capacity)
  {}

  /** A pop hands out everything, or the first m for a positive maximum m below that, and a reader
      gets something unless the queue is empty. */
  lemma PopDecides<T>(q: Queue<T>, maximum: int)
    ensures var (q', taken) := PopInto(q, maximum);
            && taken + q'.contents == q.contents && q'.closed == q.closed && q'.capacity == q.capacity
            && (maximum <= 0 ==> taken == q.contents)
            && (0 < maximum <= |q.contents| ==> |taken| == maximum)
            && (|q.contents| < maximum ==> taken == q.contents)
  {
    var n := Taking(q, maximum);
    assert q.contents == q.contents[..n] + q.contents[n..];
  }

  // ------------------------------------------------------------ ring array

  /** The slot `offset` places behind `head` in a ring of n slots. */
  function Slot(head: nat, offset: nat, n: nat): nat
    requires head < n && offset <= n
  {
    if head + offset < n then head + offset else head + offset - n
  }

  lemma TimesAtLeastTwice(q: nat, n: nat)
    requires 2 <= q
    ensures 2 * n <= q * n
  {
    assert q * n == 2 * n + (q - 2) * n;
  }

  /** The index arithmetic of the source. */
  lemma SlotIsModulo(head: nat, offset: nat, n: nat)
    requires head < n && offset <= n
    ensures (head + offset) % n == Slot(head, offset, n)
  {
    var q := (head + offset) / n;
    assert head + offset == q * n + (head + offset) % n;
    if 2 <= q {
      TimesAtLeastTwice(q, n);
    } else if q == 1 {
      assert q * n == n;
    } else {
      assert q * n == 0;
    }
  }

  predicate InRing(n: nat, head: nat, length: nat) {
    length <= n && if n == 0 then head == 0 else head < n
  }

  /** The live window of a ring, in order. */
  function Window<T>(slots: seq<T>, head: nat, length: nat): seq<T>
    requires InRing(|slots|, head, length)
  {
    seq(length, i requires 0 <= i < length => slots[Slot(head, i, |slots|)])
  }

  /** The slots outside the live window hold the zero value. */
  ghost predicate ZeroOutside<T>(slots: seq<T>, head: nat, length: nat, zero: T)
    requires InRing(|slots|, head, length)
  {
    forall i :: length <= i < |slots| ==> slots[Slot(head, i, |slots|)] == zero
  }

  lemma WindowPush<T>(slots: seq<T>, head: nat, length: nat, zero: T, x: T)
    requires InRing(|slots|, head, length) && length < |slots| && ZeroOutside(slots, head, length, zero)
    ensures var slots' := slots[Slot(head, length, |slots|) := x];
            && Window(slots', head, length + 1) == Window(slots, head, length) + [x]
            && ZeroOutside(slots', head, length + 1, zero)
  {}

  /** The slots after the first `count` live ones have been taken and zeroed. */
  ghost predicate Taken<T>(slots: seq<T>, slots': seq<T>, head: nat, count: nat, zero: T)
    requires InRing(|slots|, head, count)
  {
    |slots'| == |slots| && forall i :: 0 <= i < |slots| ==>
      slots'[Slot(head, i, |slots|)] == if i < count then zero else slots[Slot(head, i, |slots|)]
  }

  lemma TakenStep<T>(slots: seq<T>, slots': seq<T>, head: nat, index: nat, zero: T)
    requires InRing(|slots|, head, index) && index < |slots| && Taken(slots, slots', head, index, zero)
    ensures var slot := Slot(head, index, |slots|);
            slots'[slot] == slots[slot] && Taken(slots, slots'[slot := zero], head, index + 1, zero)
  {}

  lemma WindowTake<T>(slots: seq<T>, slots': seq<T>, head: nat, length: nat, count: nat, zero: T)
    requires InRing(|slots|, head, length) && 0 < count <= length && ZeroOutside(slots, head, length, zero)
    requires Taken(slots, slots', head, count, zero)
    ensures var head' := Slot(head, count, |slots|);
            && Window(slots', head', length - count) == Window(slots, head, length)[count..]
            && ZeroOutside(slots', head', length - count, zero)
  {
    var n, head' := |slots|, Slot(head, count, |slots|);
    forall i | 0 <= i < n
      ensures Slot(head', i, n) == Slot(head, if i < n - count then i + count else i + count - n, n)
    {}
  }

  class Ring<T> {
    var items: array<T>
    var head: nat
    var length: nat
    var notEmpty: Waiting
    var notFull: Waiting
    var closed: bool
    var signalled: seq<bool>
    const zero: T

    function View(): Queue<T>
      reads this, items
      requires InRing(items.Length, head, length)
    {
      Queue(items.Length, Window(items[..], head, length), closed, notEmpty, notFull, signalled)
    }

    /** Indices are in range, and slots outside the live window hold the zero value. */
    ghost predicate Shaped()
      reads this, items
    {
      InRing(items.Length, head, length) && ZeroOutside(items[..], head, length, zero)
    }

    ghost predicate Valid()
      reads this, items
    {
      Shaped() && WellFormed(View())
    }

    constructor (capacity: nat, zero: T)
      ensures Valid() && fresh(items) && this.zero == zero
      ensures View() == NewQueue(capacity)
    {
      items := new T[capacity](_ => zero);
      head, length := 0, 0;
      notEmpty, notFull, closed := Nobody, Nobody, false;
      signalled := [true];
      this.zero := zero;
    }

    method SignalEmptyLocked()
      requires Shaped()
      modifies this`notEmpty, this`signalled
      ensures Shaped() && View() == SignalNotEmpty(old(View()))
    {
      if notEmpty.Waiting? && notEmpty.channel < |signalled| {
        signalled := signalled[notEmpty.channel := true];
      }
      notEmpty := Nobody;
    }

    method SignalFullLocked()
      requires Shaped()
      modifies this`notFull, this`signalled
      ensures Shaped() && View() == SignalNotFull(old(View()))
    {
      if notFull.Waiting? && notFull.channel < |signalled| {
        signalled := signalled[notFull.channel := true];
      }
      notFull := Nobody;
    }

    method PushLocked(item: T)
      requires Shaped() && length < items.Length && !closed
      modifies this`length, this`notEmpty, this`signalled, items
      ensures Shaped() && View() == TryPushBatch(old(View()), [item])
    {
      var wasEmpty := length == 0;
      SlotIsModulo(head, length, items.Length);
      WindowPush(items[..], head, length, zero, item);
      var tail := (head + length) % items.Length;
      items[tail] := item;
      length := length + 1;
      if wasEmpty {
        SignalEmptyLocked();
      }
    }

    method TryPushBatchLocked(xs: seq<T>) returns (pushed: nat)
      requires Valid()
      modifies this`length, this`notEmpty, this`signalled, items
      ensures Valid() && View() == TryPushBatch(old(View()), xs)
      ensures pushed == Fitting(old(View()), |xs|)
    {
      pushed := 0;
      ghost var before := View();
      while pushed < |xs| && !closed && length < items.Length
        invariant pushed <= Fitting(before, |xs|)
        invariant Shaped() && View() == TryPushBatch(before, xs[..pushed])
      {
        BatchStep(before, xs, pushed);
        PushLocked(xs[pushed]);
        pushed := pushed + 1;
      }
      BatchEnd(before, xs, pushed);
      BatchKeeps(before, xs);
    }

    method PushTurnLocked(item: T) returns (result: PushResult)
      requires Valid()
      modifies this, items
      ensures Valid() && items == old(items) && (View(), result) == PushTurn(old(View()), item)
      ensures result.Refused? <==> old(closed)
      ensures result.Accepted? <==> !old(closed) && old(length) < items.Length
      ensures View().contents == old(View().contents) + (if result.Accepted? then [item] else [])
      ensures result.WaitFor? ==> result.channel < |signalled| && !signalled[result.channel]
    {
      PushTurnDecides(View(), item);
      BatchKeeps(View(), [item]);
      PushTurnKeeps(View(), item);
      if closed {
        return Refused;
      }
      if length < items.Length {
        PushLocked(item);
        return Accepted;
      }
      if notFull == Nobody {
        notFull := Waiting(|signalled|);
        signalled := signalled + [false];
      }
      return WaitFor(notFull.channel);
    }

    /** The copying loop of `PopInto` (data_packet_queue.go:85-93). */
    method TakeLocked(count: nat) returns (taken: seq<T>)
      requires Shaped() && 0 < count <= length
      modifies this`head, this`length, items
      ensures Shaped() && old(View()).contents == taken + View().contents && |taken| == count
    {
      taken := [];
      ghost var slots, window := items[..], View().contents;
      for index := 0 to count
        invariant head == old(head) && length == old(length)
        invariant taken == window[..index]
        invariant Taken(slots, items[..], head, index, zero)
      {
        SlotIsModulo(head, index, items.Length);
        var itemIndex := (head + index) % items.Length;
        TakenStep(slots, items[..], head, index, zero);
        taken := taken + [items[itemIndex]];
        items[itemIndex] := zero;
      }
      SlotIsModulo(head, count, items.Length);
      WindowTake(slots, items[..], head, length, count, zero);
      head := (head + count) % items.Length;
      length := length - count;
    }

    method PopIntoLocked(maximum: int) returns (taken: seq<T>)
      requires Valid()
      modifies this, items
      ensures Valid() && items == old(items) && (View(), taken) == PopInto(old(View()), maximum)
      ensures taken + View().contents == old(View().contents)
      ensures |taken| == if 0 < maximum < old(length) then maximum else old(length)
    {
      PopDecides(View(), maximum);
      PopKeeps(View(), maximum);
      var count := length;
      if 0 < maximum < count {
        count := maximum;
      }
      if count == 0 {
        return [];
      }
      taken := TakeLocked(count);
      SignalFullLocked();
    }

    method WakeLocked() returns (channel: nat)
      requires Valid()
      modifies this`notEmpty, this`signalled
      ensures Valid() && (View(), channel) == Wake(old(View()))
    {
      WakeKeeps(View());
      if length > 0 || closed {
        return ALREADY;
      }
      if notEmpty == Nobody {
        notEmpty := Waiting(|signalled|);
        signalled := signalled + [false];
      }
      return notEmpty.channel;
    }

    method CloseLocked()
      requires Valid()
      modifies this`closed, this`notEmpty, this`notFull, this`signalled
      ensures Valid() && View() == Close(old(View()))
    {
      CloseKeeps(View());
      if !closed {
        closed := true;
        SignalEmptyLocked();
        SignalFullLocked();
      }
    }
  }

  lemma BatchStep<T>(q: Queue<T>, xs: seq<T>, n: nat)
    requires n < |xs| && n <= Fitting(q, |xs|) && WellFormed(q)
    requires !q.closed && |TryPushBatch(q, xs[..n]).contents| < q.capacity
    ensures TryPushBatch(TryPushBatch(q, xs[..n]), [xs[n]]) == TryPushBatch(q, xs[..n + 1])
    ensures n + 1 <= Fitting(q, |xs|)
  {
    assert xs[..n][..n] == xs[..n];
    assert q.contents + xs[..n] + [xs[n]] == q.contents + xs[..n + 1];
    assert [xs[n]][..1] == [xs[n]];
    assert xs[..n + 1][..n + 1] == xs[..n + 1];
  }

  lemma BatchEnd<T>(q: Queue<T>, xs: seq<T>, n: nat)
    requires n <= Fitting(q, |xs|) && WellFormed(q)
    requires n == |xs| || q.closed || |TryPushBatch(q, xs[..n]).contents| >= q.capacity
    ensures n == Fitting(q, |xs|) && TryPushBatch(q, xs[..n]) == TryPushBatch(q, xs)
  {
    assert xs[..n][..n] == xs[..n];
  }
}
