/** The reconnect backoff and its budget (client_supervisor.go:13-38 and 222-242), in
    nanoseconds. */
module Reconnect {

  const SECOND := 1_000_000_000
  const INITIAL_BACKOFF := 1_000_000_000
  const MAXIMUM_BACKOFF := 60_000_000_000

  datatype ReconnectState = ReconnectState(backoff: int, established: bool, reconnecting: bool, timeoutRemaining: int)

  function NewReconnectState(): ReconnectState {
    ReconnectState(INITIAL_BACKOFF, false, false, 0)
  }

  function TunnelLost(r: ReconnectState, timeout: int): ReconnectState {
    ReconnectState(INITIAL_BACKOFF, true, true, timeout)
  }

  function Min(a: int, b: int): int {
    if a < b then a else b
  }

  function AttemptFailed(r: ReconnectState): ReconnectState {
    r.(backoff := Min(r.backoff * 2, MAXIMUM_BACKOFF))
  }

  /** The budget is used up, so no further wait is started. */
  predicate OutOfBudget(r: ReconnectState) {
    r.reconnecting && r.timeoutRemaining <= 0
  }

  /** How long the next wait is. */
  function NextWait(r: ReconnectState): int {
    if r.reconnecting then Min(r.backoff, r.timeoutRemaining) else r.backoff
  }

  /** After the timer of a wait has fired. */
  function Waited(r: ReconnectState, wait: int): ReconnectState {
    if r.reconnecting then r.(timeoutRemaining := r.timeoutRemaining - wait) else r
  }

  // --------------------------------------------------------- the schedule

  /** The backoff after n failed attempts. */
  function Backoff(n: nat): int {
    if n == 0 then INITIAL_BACKOFF else Min(Backoff(n - 1) * 2, MAXIMUM_BACKOFF)
  }

  /** The time the first n waits take when the budget does not cut them short. */
  function Spent(n: nat): int {
    if n == 0 then 0 else Spent(n - 1) + Backoff(n - 1)
  }

  lemma FirstBackoffs()
    ensures Backoff(0) == 1 * SECOND && Backoff(1) == 2 * SECOND && Backoff(2) == 4 * SECOND
    ensures Backoff(3) == 8 * SECOND && Backoff(4) == 16 * SECOND && Backoff(5) == 32 * SECOND
    ensures Spent(0) == 0 && Spent(1) == 1 * SECOND && Spent(2) == 3 * SECOND && Spent(3) == 7 * SECOND
    ensures Spent(4) == 15 * SECOND && Spent(5) == 31 * SECOND && Spent(6) == 63 * SECOND
  {
    assert Backoff(1) == Min(Backoff(0) * 2, MAXIMUM_BACKOFF);
    assert Backoff(2) == Min(Backoff(1) * 2, MAXIMUM_BACKOFF);
    assert Backoff(3) == Min(Backoff(2) * 2, MAXIMUM_BACKOFF);
    assert Backoff(4) == Min(Backoff(3) * 2, MAXIMUM_BACKOFF);
    assert Backoff(5) == Min(Backoff(4) * 2, MAXIMUM_BACKOFF);
    assert Spent(1) == Spent(0) + Backoff(0);
    assert Spent(2) == Spent(1) + Backoff(1);
    assert Spent(3) == Spent(2) + Backoff(2);
    assert Spent(4) == Spent(3) + Backoff(3);
    assert Spent(5) == Spent(4) + Backoff(4);
    assert Spent(6) == Spent(5) + Backoff(5);
  }

  lemma {:induction false} LaterBackoffs(n: nat)
    requires 6 <= n
    ensures Backoff(n) == 60 * SECOND
    ensures Spent(n) == 63 * SECOND + 60 * SECOND * (n - 6)
  {
    FirstBackoffs();
    if n == 6 {
      assert Backoff(6) == Min(Backoff(5) * 2, MAXIMUM_BACKOFF);
    } else {
      LaterBackoffs(n - 1);
    }
  }

  /** Every backoff is 1, 2, 4, 8, 16, 32 or 60 seconds. */
  lemma BackoffValues(n: nat)
    ensures Backoff(n) in {1 * SECOND, 2 * SECOND, 4 * SECOND, 8 * SECOND, 16 * SECOND, 32 * SECOND, 60 * SECOND}
  {
    FirstBackoffs();
    if 6 <= n {
      LaterBackoffs(n);
    }
  }

  lemma {:induction false} SpentMonotone(m: nat, n: nat)
    requires m <= n
    ensures Spent(m) <= Spent(n)
    ensures m < n ==> Spent(m) < Spent(n)
    decreases n
  {
    if m < n {
      SpentMonotone(m, n - 1);
      BackoffValues(n - 1);
    }
  }

  /** How many waits a budget lasts: 6 + ceil((T - 63 s) / 60 s) beyond 63 seconds. */
  function WaitsFor(budget: nat): nat {
    if budget == 0 then 0
    else if budget <= 1 * SECOND then 1
    else if budget <= 3 * SECOND then 2
    else if budget <= 7 * SECOND then 3
    else if budget <= 15 * SECOND then 4
    else if budget <= 31 * SECOND then 5
    else if budget <= 63 * SECOND then 6
    else 6 + (budget - 63 * SECOND + 60 * SECOND - 1) / (60 * SECOND)
  }

  /** The closed form is the least number of waits that uses the budget up. */
  lemma WaitsForIsLeast(budget: nat, n: nat)
    ensures n == WaitsFor(budget) <==> budget <= Spent(n) && (n == 0 || Spent(n - 1) < budget)
  {
    WaitsForUses(budget);
    var w := WaitsFor(budget);
    if budget <= Spent(n) && (n == 0 || Spent(n - 1) < budget) {
      if n < w {
        SpentMonotone(n, w - 1);
      } else if w < n {
        SpentMonotone(w, n - 1);
      }
    }
  }

  lemma WaitsForUses(budget: nat)
    ensures var w := WaitsFor(budget); budget <= Spent(w) && (w == 0 || Spent(w - 1) < budget)
  {
    FirstBackoffs();
    if 63 * SECOND < budget {
      var w := WaitsFor(budget);
      LaterBackoffs(w);
      if 6 < w {
        LaterBackoffs(w - 1);
      }
    }
  }

  // -------------------------------------------------- the state in a run

  /** The reconnect state after `tries` waits since it was created or the tunnel was lost, of
      which `waited` has been spent from the budget. */
  ghost predicate OnSchedule(r: ReconnectState, tries: nat, budget: nat, waited: int) {
    && r.backoff == Backoff(tries)
    && (r.reconnecting ==>
          && 0 <= r.timeoutRemaining && waited + r.timeoutRemaining == budget
          && waited == Min(budget, Spent(tries))
          && (tries == 0 || Spent(tries - 1) < budget))
  }

  lemma FreshOnSchedule(r: ReconnectState, timeout: nat)
    ensures OnSchedule(NewReconnectState(), 0, timeout, 0)
    ensures OnSchedule(TunnelLost(r, timeout), 0, timeout, 0)
  {}

  /** A wait and the failed attempt that follows stay on schedule. */
  lemma WaitKeepsSchedule(r: ReconnectState, tries: nat, budget: nat, waited: int)
    requires OnSchedule(r, tries, budget, waited) && !OutOfBudget(r)
    ensures OnSchedule(AttemptFailed(Waited(r, NextWait(r))), tries + 1, budget,
                       if r.reconnecting then waited + NextWait(r) else waited)
    ensures 0 < NextWait(r)
  {
    BackoffValues(tries);
  }

  /** The timeout is raised after exactly the closed-form number of waits, with all of the
      budget spent, and never before. */
  lemma OutOfBudgetExactly(r: ReconnectState, tries: nat, budget: nat, waited: int)
    requires OnSchedule(r, tries, budget, waited) && r.reconnecting
    ensures OutOfBudget(r) <==> tries == WaitsFor(budget)
    ensures OutOfBudget(r) ==> waited == budget
    ensures tries <= WaitsFor(budget)
  {
    WaitsForIsLeast(budget, tries);
    WaitsForUses(budget);
    var w := WaitsFor(budget);
    if w < tries {
      SpentMonotone(w, tries - 1);
    }
  }

  datatype WaitOutcome = TimedOut | Cancelled | Elapsed

  /** The context survives the first n waits. */
  ghost predicate NoneCancelled(cancels: nat -> bool, n: nat) {
    forall k: nat :: k < n ==> !cancels(k)
  }

  class Supervision {
    var backoff: int
    var established: bool
    var reconnecting: bool
    var timeoutRemaining: int

    function View(): ReconnectState
      reads this
    {
      ReconnectState(backoff, established, reconnecting, timeoutRemaining)
    }

    constructor ()
      ensures View() == NewReconnectState()
    {
      backoff, established, reconnecting, timeoutRemaining := INITIAL_BACKOFF, false, false, 0;
    }

    method LoseTunnel(reconnectTimeout: int)
      modifies this
      ensures View() == TunnelLost(old(View()), reconnectTimeout)
    {
      established := true;
      reconnecting := true;
      timeoutRemaining := reconnectTimeout;
      backoff := INITIAL_BACKOFF;
    }

    method FailAttempt()
      modifies this`backoff
      ensures View() == AttemptFailed(old(View()))
    {
      backoff := Min(backoff * 2, MAXIMUM_BACKOFF);
    }

    /** `waitClientReconnectBackoff` (client_supervisor.go:222-242): the budget is looked at
        first, then the timer and the context race; `cancelled` says that the context won. */
    method WaitBackoff(cancelled: bool) returns (outcome: WaitOutcome, wait: int)
      modifies this`timeoutRemaining
      ensures outcome == if OutOfBudget(old(View())) then TimedOut else if cancelled then Cancelled else Elapsed
      ensures wait == NextWait(old(View()))
      ensures View() == if outcome == Elapsed then Waited(old(View()), wait) else old(View())
    {
      wait := backoff;
      if reconnecting {
        if timeoutRemaining <= 0 {
          return TimedOut, NextWait(View());
        }
        wait := Min(wait, timeoutRemaining);
      }
      if cancelled {
        return Cancelled, wait;
      }
      if reconnecting {
        timeoutRemaining := timeoutRemaining - wait;
      }
      return Elapsed, wait;
    }

    /** Attempts that keep failing after a tunnel was lost, the context being cancelled in the
        waits that `cancels` names: the supervisor times out after the closed-form number of
        waits, having waited for the whole budget, unless an earlier wait is cancelled, and what
        it has not waited is then still in the budget. */
    method RetryUntilTimeout(reconnectTimeout: nat, cancels: nat -> bool)
      returns (outcome: WaitOutcome, waits: nat, total: int)
      modifies this
      ensures outcome == TimedOut <==> NoneCancelled(cancels, WaitsFor(reconnectTimeout))
      ensures outcome == TimedOut ==>
                waits == WaitsFor(reconnectTimeout) && total == reconnectTimeout && OutOfBudget(View())
      ensures outcome != TimedOut ==>
                && outcome == Cancelled && waits < WaitsFor(reconnectTimeout)
                && cancels(waits) && NoneCancelled(cancels, waits)
                && total == Spent(waits) && total + timeoutRemaining == reconnectTimeout
    {
      waits, total := 0, 0;
      LoseTunnel(reconnectTimeout);
      FreshOnSchedule(View(), reconnectTimeout);
      while true
        invariant reconnecting && OnSchedule(View(), waits, reconnectTimeout, total)
        invariant NoneCancelled(cancels, waits)
        decreases timeoutRemaining
      {
        OutOfBudgetExactly(View(), waits, reconnectTimeout, total);
        if !OutOfBudget(View()) {
          WaitKeepsSchedule(View(), waits, reconnectTimeout, total);
        }
        var wait;
        outcome, wait := WaitBackoff(cancels(waits));
        if outcome != Elapsed {
          return;
        }
        FailAttempt();
        waits, total := waits + 1, total + wait;
      }
    }
  }
}
