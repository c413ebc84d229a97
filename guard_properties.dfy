/**
 * What the retry loop of RestGuard.Do guarantees, proved about Run, the
 * function its postcondition equates the loop with.
 */
module GuardProperties {
  import opened Wrappers
  import opened Http
  import opened Specs
  import opened Guard

  /**
   * Do always ends, and makes at most one client call per unit of budget left
   * (Service.Retries + 1 - Retries); it makes none exactly when no budget is left.
   */
  lemma {:induction false} RunCallsWithinBudget(g: GuardView, s: ServiceView, t: TicketView, send: Client,
                                                calls: nat, sleeps: nat, ans: Option<string>)
    requires Runnable(s, t, ans)
    ensures var f := Run(g, s, t, send, calls, sleeps, ans);
            calls <= f.calls <= calls + Budget(s, t) && (f.calls == calls <==> Budget(s, t) == 0)
    decreases Budget(s, t), 1
  {
    if t.retries <= s.retries {
      var outcome := send(calls, t.request.value);
      var t1 := if outcome.Received? then t.(response := Some(outcome.response)) else t;
      if !(outcome.Received? && s.validator.value(t1)) {
        AfterRetryCallsWithinBudget(g, s, RetryStep(g, s, t1), send, calls + 1, sleeps, outcome);
      }
    }
  }

  lemma {:induction false} AfterRetryCallsWithinBudget(g: GuardView, s: ServiceView, st: Stepped, send: Client,
                                                       calls: nat, sleeps: nat, outcome: Outcome)
    requires st.result.Success? ==> s.validator.Some? && st.ticket.request.Some? && st.ticket.node != null && st.ticket.retries > 0
    ensures var f := AfterRetry(g, s, st, send, calls, sleeps, outcome);
            calls <= f.calls <= calls + Budget(s, st.ticket)
    decreases Budget(s, st.ticket) + 1, 0
  {
    if st.result.Success? && outcome.TransportFailure? {
      RunCallsWithinBudget(g, s, st.ticket, send, calls, sleeps + SleepCount(st.result.value), Some(outcome.reason));
    }
  }

  /**
   * When every client call fails in transport (the k-th with reason(k)) and no
   * retry step can fail, Do spends the whole budget: Service.Retries + 1 -
   * Retries calls, the transport error of the last call as result, and Retries
   * left at Service.Retries by the final decrement.
   */
  lemma {:induction false} RunExhaustsBudgetOnTransportFailures(g: GuardView, s: ServiceView, t: TicketView, send: Client,
                                                                reason: nat -> string,
                                                                calls: nat, sleeps: nat, ans: Option<string>)
    requires Runnable(s, t, ans) && t.retries <= s.retries
    requires forall k, req :: send(k, req) == TransportFailure(reason(k))
    requires RebuildCannotFail(g, s)
    requires g.retryCb.Some? ==> forall tv :: g.retryCb.value(tv).Success?
    ensures var f := Run(g, s, t, send, calls, sleeps, ans);
            && f.calls == calls + s.retries + 1 - t.retries
            && f.ticket.retries == s.retries
            && f.err == Some(Transport(reason(f.calls - 1)))
    decreases Budget(s, t), 1
  {
    RetryStepSpec(g, s, t);
    assert NextNode(g, Advanced(t)).Success?;
    AfterRetryExhaustsBudget(g, s, RetryStep(g, s, t), send, reason, calls + 1, sleeps, send(calls, t.request.value));
  }

  lemma {:induction false} AfterRetryExhaustsBudget(g: GuardView, s: ServiceView, st: Stepped, send: Client,
                                                    reason: nat -> string,
                                                    calls: nat, sleeps: nat, outcome: Outcome)
    requires st.result.Success? && calls > 0 && outcome == TransportFailure(reason(calls - 1))
    requires s.validator.Some? && st.ticket.request.Some? && st.ticket.node != null
    requires 0 < st.ticket.retries <= s.retries + 1
    requires forall k, req :: send(k, req) == TransportFailure(reason(k))
    requires RebuildCannotFail(g, s)
    requires g.retryCb.Some? ==> forall tv :: g.retryCb.value(tv).Success?
    ensures var f := AfterRetry(g, s, st, send, calls, sleeps, outcome);
            && f.calls == calls + s.retries + 1 - st.ticket.retries
            && f.ticket.retries == s.retries
            && f.err == Some(Transport(reason(f.calls - 1)))
    decreases Budget(s, st.ticket) + 1, 0
  {
    var sleeps' := sleeps + SleepCount(st.result.value);
    if st.ticket.retries <= s.retries {
      RunExhaustsBudgetOnTransportFailures(g, s, st.ticket, send, reason, calls, sleeps', Some(outcome.reason));
    } else {
      RunAtLimit(g, s, st.ticket, send, calls, sleeps', Some(outcome.reason));
    }
  }

  /**
   * The failed-node list only grows, and never holds a node twice: every retry
   * step appends the node it gave up on, unless it is already there.
   */
  lemma {:induction false} RunKeepsFailedNodesUnique(g: GuardView, s: ServiceView, t: TicketView, send: Client,
                                                     calls: nat, sleeps: nat, ans: Option<string>)
    requires Runnable(s, t, ans) && NoDuplicates(t.failed)
    ensures var f := Run(g, s, t, send, calls, sleeps, ans);
            NoDuplicates(f.ticket.failed) && t.failed <= f.ticket.failed
    decreases Budget(s, t), 1
  {
    if t.retries <= s.retries {
      var outcome := send(calls, t.request.value);
      var t1 := if outcome.Received? then t.(response := Some(outcome.response)) else t;
      if !(outcome.Received? && s.validator.value(t1)) {
        AddFailKeepsNoDuplicates(t.failed, t.node);
        AfterRetryKeepsFailedNodesUnique(g, s, RetryStep(g, s, t1), send, calls + 1, sleeps, outcome);
      }
    }
  }

  lemma {:induction false} AfterRetryKeepsFailedNodesUnique(g: GuardView, s: ServiceView, st: Stepped, send: Client,
                                                            calls: nat, sleeps: nat, outcome: Outcome)
    requires st.result.Success? ==> s.validator.Some? && st.ticket.request.Some? && st.ticket.node != null && st.ticket.retries > 0
    requires NoDuplicates(st.ticket.failed)
    ensures var f := AfterRetry(g, s, st, send, calls, sleeps, outcome);
            NoDuplicates(f.ticket.failed) && st.ticket.failed <= f.ticket.failed
    decreases Budget(s, st.ticket) + 1, 0
  {
    if st.result.Success? && outcome.TransportFailure? {
      RunKeepsFailedNodesUnique(g, s, st.ticket, send, calls, sleeps + SleepCount(st.result.value), Some(outcome.reason));
    }
  }

  /**
   * A transport error comes out of Do only once the budget is spent, and the
   * final decrement then leaves Retries equal to Service.Retries.
   */
  lemma {:induction false} RunTransportErrorLeavesRetriesAtLimit(g: GuardView, s: ServiceView, t: TicketView, send: Client,
                                                                 calls: nat, sleeps: nat, ans: Option<string>)
    requires Runnable(s, t, ans) && (ans.Some? ==> t.retries <= s.retries + 1)
    ensures var f := Run(g, s, t, send, calls, sleeps, ans);
            f.err.Some? && f.err.value.Transport? ==> f.ticket.retries == s.retries
    decreases Budget(s, t), 1
  {
    if t.retries <= s.retries {
      var outcome := send(calls, t.request.value);
      var t1 := if outcome.Received? then t.(response := Some(outcome.response)) else t;
      if !(outcome.Received? && s.validator.value(t1)) {
        AfterRetryTransportErrorAtLimit(g, s, RetryStep(g, s, t1), send, calls + 1, sleeps, outcome);
      }
    }
  }

  lemma {:induction false} AfterRetryTransportErrorAtLimit(g: GuardView, s: ServiceView, st: Stepped, send: Client,
                                                           calls: nat, sleeps: nat, outcome: Outcome)
    requires st.result.Success? ==> s.validator.Some? && st.ticket.request.Some? && st.ticket.node != null
    requires st.result.Success? ==> 0 < st.ticket.retries <= s.retries + 1
    requires st.result.Failure? ==> !st.result.error.Transport?
    ensures var f := AfterRetry(g, s, st, send, calls, sleeps, outcome);
            f.err.Some? && f.err.value.Transport? ==> f.ticket.retries == s.retries
    decreases Budget(s, st.ticket) + 1, 0
  {
    if st.result.Success? && outcome.TransportFailure? {
      RunTransportErrorLeavesRetriesAtLimit(g, s, st.ticket, send, calls, sleeps + SleepCount(st.result.value), Some(outcome.reason));
    }
  }

  /**
   * A retry step that fails (the callback, the rebuild or the interval) ends Do
   * with that error at once: nothing more is sent, and Retries keeps the
   * increment of the failed step since the final decrement is skipped.
   */
  lemma RunReturnsRetryError(g: GuardView, s: ServiceView, t: TicketView, send: Client,
                             calls: nat, sleeps: nat, ans: Option<string>)
    requires Runnable(s, t, ans) && t.retries <= s.retries
    requires var outcome := send(calls, t.request.value);
             var t1 := if outcome.Received? then t.(response := Some(outcome.response)) else t;
             !(outcome.Received? && s.validator.value(t1)) && RetryStep(g, s, t1).result.Failure?
    ensures var outcome := send(calls, t.request.value);
            var t1 := if outcome.Received? then t.(response := Some(outcome.response)) else t;
            var f := Run(g, s, t, send, calls, sleeps, ans);
            && f.err == Some(RetryStep(g, s, t1).result.error)
            && !f.err.value.Transport?
            && f.calls == calls + 1 && f.sleeps == sleeps
            && f.ticket.retries == t.retries + 1
            && f.ticket.failed == WithFail(t.failed, t.node)
  {
  }

  /**
   * The first response ends the loop after that one call. An accepted response
   * is kept and Do returns nil; a rejected one costs one retry step, which
   * rebuilds the request and so clears the response, and nothing more is sent.
   */
  lemma RunStopsAtFirstResponse(g: GuardView, s: ServiceView, t: TicketView, send: Client,
                                calls: nat, sleeps: nat, ans: Option<string>)
    requires Runnable(s, t, ans) && t.retries <= s.retries
    requires send(calls, t.request.value).Received?
    ensures var t1 := t.(response := Some(send(calls, t.request.value).response));
            var f := Run(g, s, t, send, calls, sleeps, ans);
            && f.calls == calls + 1
            && (f.err.None? || !f.err.value.Transport?)
            && (s.validator.value(t1) ==> f == Finished(t1, None, calls + 1, sleeps))
            && (!s.validator.value(t1) ==>
                  f.ticket.retries == t.retries + 1 && (f.err.None? ==> f.ticket.response.None?))
  {
    var t1 := t.(response := Some(send(calls, t.request.value).response));
    RetryStepSpec(g, s, t1);
  }

  /**
   * With no retry callback and every call failing in transport, round-robin
   * tries the node at each retry count from Retries to Service.Retries, and
   * each of them ends up in the failed-node list.
   */
  lemma {:induction false} RunRecordsRoundRobin(g: GuardView, s: ServiceView, t: TicketView, send: Client,
                                                calls: nat, sleeps: nat, ans: Option<string>)
    requires Runnable(s, t, ans) && t.retries <= s.retries
    requires g.retryCb.None? && RebuildCannotFail(g, s)
    requires forall k, req :: send(k, req).TransportFailure?
    requires t.node == RoundRobin(s.nodes, t.retries)
    ensures var f := Run(g, s, t, send, calls, sleeps, ans);
            && t.failed <= f.ticket.failed
            && forall r :: t.retries <= r <= s.retries ==> RoundRobin(s.nodes, r) in f.ticket.failed
    decreases Budget(s, t), 1
  {
    RetryStepSpec(g, s, t);
    var st := RetryStep(g, s, t);
    assert st.result.Success?;
    WithFailRecords(t.failed, t.node);
    var outcome := send(calls, t.request.value);
    AfterRetryRecordsRoundRobin(g, s, st, send, calls + 1, sleeps, outcome);
    var f := Run(g, s, t, send, calls, sleeps, ans);
    assert f == AfterRetry(g, s, st, send, calls + 1, sleeps, outcome);
    forall r | t.retries <= r <= s.retries
      ensures RoundRobin(s.nodes, r) in f.ticket.failed
    {
      if r == t.retries {
        assert t.node in st.ticket.failed && st.ticket.failed <= f.ticket.failed;
      }
    }
  }

  lemma {:induction false} AfterRetryRecordsRoundRobin(g: GuardView, s: ServiceView, st: Stepped, send: Client,
                                                       calls: nat, sleeps: nat, outcome: Outcome)
    requires st.result.Success? && outcome.TransportFailure?
    requires s.validator.Some? && st.ticket.request.Some? && st.ticket.node != null
    requires 0 < st.ticket.retries <= s.retries + 1
    requires g.retryCb.None? && RebuildCannotFail(g, s)
    requires forall k, req :: send(k, req).TransportFailure?
    requires st.ticket.node == RoundRobin(s.nodes, st.ticket.retries)
    ensures var f := AfterRetry(g, s, st, send, calls, sleeps, outcome);
            && st.ticket.failed <= f.ticket.failed
            && forall r :: st.ticket.retries <= r <= s.retries ==> RoundRobin(s.nodes, r) in f.ticket.failed
    decreases Budget(s, st.ticket) + 1, 0
  {
    var sleeps' := sleeps + SleepCount(st.result.value);
    if st.ticket.retries <= s.retries {
      RunRecordsRoundRobin(g, s, st.ticket, send, calls, sleeps', Some(outcome.reason));
    } else {
      RunAtLimit(g, s, st.ticket, send, calls, sleeps', Some(outcome.reason));
    }
  }

  lemma MulAtLeast(d: int, n: int)
    requires d >= 1 && n > 0
    ensures d * n >= n
  {
    assert d * n == (d - 1) * n + n;
    assert (d - 1) * n >= 0;
  }

  /** Quotient and remainder of a division are unique. */
  lemma DivisionUnique(q: int, r: int, q': int, r': int, n: int)
    requires n > 0 && 0 <= r < n && 0 <= r' < n
    requires q * n + r == q' * n + r'
    ensures q == q' && r == r'
  {
    var d := q - q';
    assert d * n == r' - r;
    if d >= 1 {
      MulAtLeast(d, n);
      assert false;
    } else if d <= -1 {
      MulAtLeast(-d, n);
      assert false;
    }
  }

  /** Any n consecutive retry counts meet every residue modulo n. */
  lemma ResidueInWindow(a: nat, n: nat, i: nat) returns (r: nat)
    requires i < n
    ensures a <= r < a + n && r % n == i
  {
    var q, m := a / n, a % n;
    if i >= m {
      r := q * n + i;
    } else {
      r := (q + 1) * n + i;
    }
    var q' := if i >= m then q else q + 1;
    assert r == q' * n + i;
    DivisionUnique(q', i, r / n, r % n, n);
  }

  /**
   * With no retry callback, every call failing in transport, and a budget of
   * at least as many calls as there are nodes, Do tries every node of the
   * service: each one ends up in the failed-node list.
   */
  lemma RunTriesEveryNode(g: GuardView, s: ServiceView, t: TicketView, send: Client,
                          calls: nat, sleeps: nat, ans: Option<string>)
    requires Runnable(s, t, ans)
    requires g.retryCb.None? && RebuildCannotFail(g, s)
    requires forall k, req :: send(k, req).TransportFailure?
    requires t.node == RoundRobin(s.nodes, t.retries)
    requires Budget(s, t) >= |s.nodes|
    ensures forall n :: n in s.nodes ==> n in Run(g, s, t, send, calls, sleeps, ans).ticket.failed
  {
    RunRecordsRoundRobin(g, s, t, send, calls, sleeps, ans);
    var f := Run(g, s, t, send, calls, sleeps, ans);
    forall n | n in s.nodes
      ensures n in f.ticket.failed
    {
      var i :| 0 <= i < |s.nodes| && s.nodes[i] == n;
      var r := ResidueInWindow(t.retries, |s.nodes|, i);
      assert RoundRobin(s.nodes, r) == n;
    }
  }

  /**
   * Fail-over on a two-node service with one retry: the first node is refused,
   * round-robin moves to the second, whose response is accepted. Do returns nil
   * with Retries at 1 and the first node recorded as failed.
   */
  lemma FailoverToSecondNode(g: GuardView, n0: RestNode, n1: RestNode, v: Validator, t: TicketView, send: Client)
    requires g.retryCb.None? && forall verb, url :: g.newRequestOk(verb, url)
    requires t.request.Some? && t.node == n0 && t.retries == 0 && t.failed == []
    requires send(0, t.request.value).TransportFailure?
    requires forall req :: send(1, req).Received?
    requires forall tv :: v(tv)
    ensures var f := Run(g, ServiceView([n0, n1], 1, 0, Some(v)), t, send, 0, 0, None);
            && f.err.None? && f.calls == 2 && f.ticket.retries == 1
            && f.ticket.node == n1 && f.ticket.failed == [n0] && f.ticket.response.Some?
  {
    var s := ServiceView([n0, n1], 1, 0, Some(v));
    RunUnfold(g, s, t, send, 0, 0, None);
    RetryStepSpec(g, s, t);
    var st := RetryStep(g, s, t);
    assert st.result.Success?;
    assert 1 % 2 == 1;
    RunUnfold(g, s, st.ticket, send, 1, SleepCount(st.result.value), Some(send(0, t.request.value).reason));
  }
}
