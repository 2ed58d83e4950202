/** processWithAck(payload, ack, reject): run the overridable `handle(payload)`
    until it returns normally or the attempt budget (the listener's third
    constructor argument) is spent, then fire exactly one of `ack` and `reject`.
    The `handle` hook is given by which of its calls succeed, counted over the
    listener's lifetime as the tests' `calls` field counts them. */
module RetryListener {

  /** Whether the call of `handle` with the given 0-based index returns normally. */
  type Handler = nat -> bool

  /** A configured attempt budget; it is positive. */
  type Budget = n: nat | n >= 1 witness 1

  /** How one delivery ends: how many calls of `handle` it made and whether it was acked. */
  datatype Resolution = Resolution(attempts: nat, acked: bool)

  /** The resolution of a delivery whose next `handle` call has index `next`,
      with `budget` attempts left. */
  function Resolve(handle: Handler, next: nat, budget: nat): (r: Resolution)
    ensures r.attempts == 0 <==> budget == 0
    ensures budget == 0 ==> !r.acked
    decreases budget
  {
    if budget == 0 then Resolution(0, false)
    else if handle(next) then Resolution(1, true)
    else
      var rest := Resolve(handle, next + 1, budget - 1);
      Resolution(1 + rest.attempts, rest.acked)
  }

  /** With a positive budget at least one and at most `budget` attempts are made. */
  lemma {:induction false} AttemptsWithinBudget(handle: Handler, next: nat, budget: nat)
    requires budget >= 1
    ensures 1 <= Resolve(handle, next, budget).attempts <= budget
    decreases budget
  {
    if !handle(next) && budget > 1 {
      AttemptsWithinBudget(handle, next + 1, budget - 1);
    }
  }

  /** Attempts stop at the first success: every attempt but the last failed, and
      the delivery is acked exactly when the last attempt succeeded. */
  lemma {:induction false} StopsAtFirstSuccess(handle: Handler, next: nat, budget: nat)
    requires budget >= 1
    ensures var r := Resolve(handle, next, budget);
            r.attempts >= 1 &&
            (forall j :: next <= j < next + r.attempts - 1 ==> !handle(j)) &&
            (r.acked <==> handle(next + r.attempts - 1))
    decreases budget
  {
    if !handle(next) && budget > 1 {
      StopsAtFirstSuccess(handle, next + 1, budget - 1);
    }
  }

  /** A delivery is acked exactly when some call within the budget succeeds. */
  lemma {:induction false} AckedIffSomeAttemptSucceeds(handle: Handler, next: nat, budget: nat)
    ensures Resolve(handle, next, budget).acked <==> exists j :: next <= j < next + budget && handle(j)
    decreases budget
  {
    if budget > 0 && !handle(next) {
      AckedIffSomeAttemptSucceeds(handle, next + 1, budget - 1);
      if exists j :: next <= j < next + budget && handle(j) {
        var j :| next <= j < next + budget && handle(j);
        assert j != next;
      }
    }
  }

  /** A rejected delivery used its whole budget. */
  lemma {:induction false} RejectedAfterFullBudget(handle: Handler, next: nat, budget: nat)
    requires !Resolve(handle, next, budget).acked
    ensures Resolve(handle, next, budget).attempts == budget
    decreases budget
  {
    if budget > 0 && !handle(next) {
      RejectedAfterFullBudget(handle, next + 1, budget - 1);
    }
  }

  class InboundNewOrderListener {
    /** The attempt budget: the third constructor argument. */
    const maxAttempts: Budget
    /** The (overridden) `handle` hook. */
    const handle: Handler
    /** Calls of `handle` so far. */
    var calls: nat
    /** Times the `ack` callback and the `reject` callback have fired. */
    var acks: nat
    var rejects: nat

    constructor (maxAttempts: Budget, handle: Handler)
      ensures this.maxAttempts == maxAttempts && this.handle == handle
      ensures calls == 0 && acks == 0 && rejects == 0
    {
      this.maxAttempts := maxAttempts;
      this.handle := handle;
      calls, acks, rejects := 0, 0, 0;
    }

    /** One call of `handle`: it returns normally (true) or throws (false). */
    method Handle() returns (ok: bool)
      modifies this`calls
      ensures calls == old(calls) + 1
      ensures ok == handle(old(calls))
    {
      ok := handle(calls);
      calls := calls + 1;
    }

    /** processWithAck: returns normally whatever `handle` throws, after firing
        exactly one of the two callbacks. */
    method ProcessWithAck(payload: string)
      modifies this`calls, this`acks, this`rejects
      ensures var r := Resolve(handle, old(calls), maxAttempts);
              calls == old(calls) + r.attempts &&
              acks == old(acks) + (if r.acked then 1 else 0) &&
              rejects == old(rejects) + (if r.acked then 0 else 1)
    {
      ghost var first := calls;
      var attempt := 0;
      while true
        invariant 0 <= attempt < maxAttempts
        invariant calls == first + attempt
        invariant acks == old(acks) && rejects == old(rejects)
        invariant var whole, rest := Resolve(handle, first, maxAttempts), Resolve(handle, calls, maxAttempts - attempt);
                  whole == Resolution(attempt + rest.attempts, rest.acked)
        decreases maxAttempts - attempt
      {
        attempt := attempt + 1;
        var ok := Handle();
        if ok {
          acks := acks + 1;
          return;
        }
        if attempt >= maxAttempts {
          rejects := rejects + 1;
          return;
        }
      }
    }
  }

  // ---------------------------------------------------------------------------
  // The retry tests, as scenarios
  // ---------------------------------------------------------------------------

  /** FlakyListener: `calls++; if (calls < 3) throw` — the first two calls fail. */
  function Flaky(index: nat): (ok: bool) { !(index + 1 < 3) }

  /** AlwaysFail: every call throws. */
  function AlwaysFail(index: nat): (ok: bool) { false }

  /** Budget 3, failing twice then succeeding: three calls, one ack, no reject. */
  method RetriesThenAcks() returns (calls: nat, acks: nat, rejects: nat)
    ensures calls == 3 && acks == 1 && rejects == 0
  {
    var listener := new InboundNewOrderListener(3, Flaky);
    listener.ProcessWithAck("irrelevant");
    calls, acks, rejects := listener.calls, listener.acks, listener.rejects;
  }

  /** Budget 3, always failing: three calls, no ack, one reject. */
  method RetriesThenRejects() returns (calls: nat, acks: nat, rejects: nat)
    ensures calls == 3 && acks == 0 && rejects == 1
  {
    var listener := new InboundNewOrderListener(3, AlwaysFail);
    listener.ProcessWithAck("irrelevant");
    calls, acks, rejects := listener.calls, listener.acks, listener.rejects;
  }
}
