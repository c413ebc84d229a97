/**
 * The request engine of the `guard` package: the service registry, request
 * construction with round-robin node selection, and the bounded retry loop.
 *
 * Each state-changing operation is a method on RestGuard whose postcondition
 * equates the ticket's new state with a pure function of its old state:
 * CreateRequest with Prepare, the retry step of Do with RetryStep, and Do with Run.
 * The properties of Run are proved in module GuardProperties.
 */
module Guard {
  import opened Wrappers
  import opened Http
  import opened Specs

  datatype Error =
    | ServiceNotFound(name: string)
    | TicketWithoutService
    | ServiceWithoutNodes
    | ServiceWithoutValidator
    | InvalidRequest(verb: string, url: string)
    | Transport(reason: string)
    | RetryCallbackFailed(reason: string)
    | InvalidRetryInterval(ms: int)
    | CreateFile(path: string)
    | ClientFailed(reason: string)
    | InvalidResponse
    | ResponseCode(code: int)
    | WriteFile(path: string, reason: string)

  /** The custom retry policy: the next node (null: let round-robin choose) or an error. */
  type RetryCallback = TicketView -> Result<RestNode?, string>

  /** Whether http.NewRequest accepts a method and a URL. */
  type RequestCheck = (string, string) -> bool

  /** The fields of a guard that the request engine reads. */
  datatype GuardView = GuardView(userAgent: string, retryCb: Option<RetryCallback>, newRequestOk: RequestCheck)

  /**
   * The largest retry interval, in milliseconds, whose duration string "<n>ms"
   * Go's time.ParseDuration accepts: the interval in nanoseconds must not pass
   * 2^63 / 10^6 milliseconds, the int64 range of time.Duration.
   */
  const MaxRetryIntervalMs: int := 9223372036854

  function ServiceOf(s: RestService?): Option<ServiceView>
    reads s
  {
    if s == null then None else Some(s.View())
  }

  /** A service the request builder accepts: present, with nodes and a validator. */
  predicate Usable(s: Option<ServiceView>)
  {
    s.Some? && |s.value.nodes| > 0 && s.value.validator.Some?
  }

  /** The URL of a request: the node prefix, then the path, with a '/' put between unless the path has one. */
  function JoinPath(prefix: string, path: string): string
  {
    if StartsWithSlash(path) then prefix + path else prefix + "/" + path
  }

  /** The URL is the prefix, exactly one '/', then the rest of the path. */
  lemma JoinPathShape(prefix: string, path: string)
    ensures var url := JoinPath(prefix, path);
            && |url| == |prefix| + |path| + (if StartsWithSlash(path) then 0 else 1)
            && url[..|prefix|] == prefix && url[|prefix|] == '/'
            && url[|url| - |path|..] == path
  {
    var url := JoinPath(prefix, path);
    assert url[..|prefix|] == prefix;
    assert url[|url| - |path|..] == path;
  }

  function UserAgentHeader(userAgent: string): seq<Header>
  {
    if userAgent == "" then [] else [Header("User-Agent", userAgent)]
  }

  /** Round-robin: the node at the retry count modulo the number of nodes. */
  function RoundRobin(nodes: seq<RestNode>, retries: nat): RestNode
    requires |nodes| > 0
  {
    nodes[retries % |nodes|]
  }

  /** The node a ticket is sent to: the assigned one, else round-robin on the retry count. */
  function SelectNode(nodes: seq<RestNode>, t: TicketView): RestNode
    requires |nodes| > 0
  {
    if t.node == null then RoundRobin(nodes, t.retries) else t.node
  }

  datatype Prepared = Prepared(ticket: TicketView, result: Result<Request, Error>)

  /** CreateRequest on ticket `t` whose service is `s` (None: the ticket has no service). */
  function Prepare(g: GuardView, s: Option<ServiceView>, t: TicketView, verb: string, path: string): (p: Prepared)
    ensures p.ticket.retries == t.retries && p.ticket.failed == t.failed
    ensures p.result.Success? ==> p.ticket.node != null && p.ticket.request == Some(p.result.value)
  {
    if s.None? then Prepared(t, Failure(TicketWithoutService))
    else if |s.value.nodes| == 0 then Prepared(t, Failure(ServiceWithoutNodes))
    else if s.value.validator.None? then Prepared(t, Failure(ServiceWithoutValidator))
    else
      var cleared := if t.request.Some? then t.(response := None) else t;
      var node := SelectNode(s.value.nodes, t);
      var t1 := cleared.(path := path, node := node);
      var url := JoinPath(node.GetUrlPrefix(), path);
      if !g.newRequestOk(verb, url) then Prepared(t1, Failure(InvalidRequest(verb, url)))
      else
        var req := Request(verb, url, UserAgentHeader(g.userAgent), None);
        Prepared(t1.(request := Some(req)), Success(req))
  }

  /**
   * What CreateRequest promises: it fails fast, leaving the ticket as it was,
   * without a service, nodes or a validator; otherwise it keeps the assigned
   * node or picks Nodes[Retries mod |Nodes|], sets the path, clears a response
   * left by an earlier request, and stores a request for prefix + path that
   * carries a User-Agent header exactly when one is configured.
   */
  lemma PrepareSpec(g: GuardView, s: Option<ServiceView>, t: TicketView, verb: string, path: string)
    ensures var p := Prepare(g, s, t, verb, path);
      && (s.None? ==> p == Prepared(t, Failure(TicketWithoutService)))
      && (s.Some? && s.value.nodes == [] ==> p == Prepared(t, Failure(ServiceWithoutNodes)))
      && (s.Some? && s.value.nodes != [] && s.value.validator.None? ==>
            p == Prepared(t, Failure(ServiceWithoutValidator)))
      && (Usable(s) ==>
            && p.ticket.path == path
            && p.ticket.node == SelectNode(s.value.nodes, t)
            && p.ticket.response == (if t.request.Some? then None else t.response)
            && (p.result.Success? <==>
                  g.newRequestOk(verb, JoinPath(SelectNode(s.value.nodes, t).GetUrlPrefix(), path))))
      && (p.result.Failure? ==> p.ticket.request == t.request)
      && (p.result.Success? ==>
            && Usable(s)
            && p.result.value.verb == verb
            && p.result.value.url == JoinPath(p.ticket.node.GetUrlPrefix(), path)
            && p.result.value.body.None?
            && (g.userAgent != "" <==> Header("User-Agent", g.userAgent) in p.result.value.header))
  {
  }

  /** The ticket the retry callback sees: counter advanced, current node recorded as failed. */
  function Advanced(t: TicketView): (a: TicketView)
    requires t.node != null
  {
    t.(retries := t.retries + 1, failed := WithFail(t.failed, t.node))
  }

  /** The node handed to the request builder after a retry: the callback's choice, or none. */
  function NextNode(g: GuardView, t: TicketView): Result<RestNode?, string>
  {
    match g.retryCb
    case None => Success(null)
    case Some(cb) => cb(t)
  }

  /** The conditions under which a retry step whose callback succeeds cannot fail. */
  ghost predicate RebuildCannotFail(g: GuardView, s: ServiceView)
  {
    && |s.nodes| > 0 && s.validator.Some?
    && (forall verb, url :: g.newRequestOk(verb, url))
    && s.retryIntervalMs <= MaxRetryIntervalMs
  }

  /** The outcome of a retry step: whether it slept, or the error that ends Do. */
  datatype Stepped = Stepped(ticket: TicketView, result: Result<bool, Error>)

  /** The retry step of Do (its handleRetry closure) on a ticket whose last attempt failed. */
  function RetryStep(g: GuardView, s: ServiceView, t: TicketView): (st: Stepped)
    requires t.request.Some? && t.node != null
    ensures st.ticket.retries == t.retries + 1
    ensures st.ticket.failed == WithFail(t.failed, t.node)
    ensures st.result.Failure? ==> !st.result.error.Transport?
    ensures st.result.Success? ==> st.ticket.request.Some? && st.ticket.node != null
  {
    var a := Advanced(t);
    var current := t.request.value;
    match NextNode(g, a)
    case Failure(e) => Stepped(a, Failure(RetryCallbackFailed(e)))
    case Success(next) =>
      var p := Prepare(g, Some(s), a.(node := next), current.verb, a.path);
      if p.result.Failure? then Stepped(p.ticket, Failure(p.result.error))
      else
        var req := p.result.value.(header := current.header, body := current.body);
        var t1 := p.ticket.(request := Some(req));
        var sleep := t1.node in t1.failed && s.retryIntervalMs > 0;
        if sleep && s.retryIntervalMs > MaxRetryIntervalMs then Stepped(t1, Failure(InvalidRetryInterval(s.retryIntervalMs)))
        else Stepped(t1, Success(sleep))
  }

  /**
   * What a retry step promises beyond the counter and the failed-node list: the
   * next node is the callback's choice, or round-robin when there is none or it
   * chose nil; the request is rebuilt for the same method, path, headers and
   * body, against the new node; it sleeps exactly when the new node already
   * failed and an interval is set; and it cannot fail when the callback
   * answers, every request is accepted and the interval is in range.
   */
  lemma RetryStepSpec(g: GuardView, s: ServiceView, t: TicketView)
    requires t.request.Some? && t.node != null
    ensures var st := RetryStep(g, s, t);
      && (st.result.Success? ==>
            && NextNode(g, Advanced(t)).Success? && |s.nodes| > 0
            && st.ticket.node == SelectNode(s.nodes, Advanced(t).(node := NextNode(g, Advanced(t)).value))
            && st.ticket.path == t.path
            && st.ticket.response.None?
            && st.ticket.request.value.verb == t.request.value.verb
            && st.ticket.request.value.header == t.request.value.header
            && st.ticket.request.value.body == t.request.value.body
            && st.ticket.request.value.url == JoinPath(st.ticket.node.GetUrlPrefix(), t.path)
            && (st.result.value <==> st.ticket.node in st.ticket.failed && s.retryIntervalMs > 0))
      && (st.result.Success? && g.retryCb.None? ==> st.ticket.node == RoundRobin(s.nodes, t.retries + 1))
      && (RebuildCannotFail(g, s) && NextNode(g, Advanced(t)).Success? ==> st.result.Success?)
  {
    var a := Advanced(t);
    if NextNode(g, a).Success? {
      PrepareSpec(g, Some(s), a.(node := NextNode(g, a).value), t.request.value.verb, a.path);
    }
  }

  /** What Do leaves behind: the ticket, the returned error, the client calls and the sleeps. */
  datatype Finished = Finished(ticket: TicketView, err: Option<Error>, calls: nat, sleeps: nat)

  /** A ticket Do can work on: a request was built for a node, and the service can validate. */
  predicate Runnable(s: ServiceView, t: TicketView, ans: Option<string>)
  {
    s.validator.Some? && t.request.Some? && t.node != null && (ans.Some? ==> t.retries > 0)
  }

  /** The client calls the retry budget still allows. */
  function Budget(s: ServiceView, t: TicketView): nat
  {
    if t.retries <= s.retries then s.retries + 1 - t.retries else 0
  }

  function SleepCount(slept: bool): nat { if slept then 1 else 0 }

  /**
   * The loop of Do from ticket `t`, after `calls` client calls and `sleeps` sleeps,
   * `ans` being the transport error of the last call (if it was one). An
   * accepted response ends it at once; otherwise the retry step runs.
   */
  function Run(g: GuardView, s: ServiceView, t: TicketView, send: Client, calls: nat, sleeps: nat, ans: Option<string>): Finished
    requires Runnable(s, t, ans)
    decreases Budget(s, t), 1
  {
    if t.retries > s.retries then
      if ans.Some? then Finished(t.(retries := t.retries - 1), Some(Transport(ans.value)), calls, sleeps)
      else Finished(t, None, calls, sleeps)
    else
      var outcome := send(calls, t.request.value);
      var t1 := if outcome.Received? then t.(response := Some(outcome.response)) else t;
      if outcome.Received? && s.validator.value(t1) then Finished(t1, None, calls + 1, sleeps)
      else AfterRetry(g, s, RetryStep(g, s, t1), send, calls + 1, sleeps, outcome)
  }

  /**
   * The rest of Do once the retry step `st` has run after attempt `outcome`:
   * an error from the step is returned, a rejected response breaks the loop,
   * and a transport failure goes round again.
   */
  function AfterRetry(g: GuardView, s: ServiceView, st: Stepped, send: Client, calls: nat, sleeps: nat, outcome: Outcome): Finished
    requires st.result.Success? ==> s.validator.Some? && st.ticket.request.Some? && st.ticket.node != null && st.ticket.retries > 0
    decreases Budget(s, st.ticket) + 1, 0
  {
    if st.result.Failure? then Finished(st.ticket, Some(st.result.error), calls, sleeps)
    else if outcome.Received? then Finished(st.ticket, None, calls, sleeps + SleepCount(st.result.value))
    else Run(g, s, st.ticket, send, calls, sleeps + SleepCount(st.result.value), Some(outcome.reason))
  }

  /** One iteration of Run within the budget: the call, then an accepted response or the retry step. */
  lemma RunUnfold(g: GuardView, s: ServiceView, t: TicketView, send: Client, calls: nat, sleeps: nat, ans: Option<string>)
    requires Runnable(s, t, ans) && t.retries <= s.retries
    ensures var outcome := send(calls, t.request.value);
            var t1 := if outcome.Received? then t.(response := Some(outcome.response)) else t;
            Run(g, s, t, send, calls, sleeps, ans) ==
              if outcome.Received? && s.validator.value(t1) then Finished(t1, None, calls + 1, sleeps)
              else AfterRetry(g, s, RetryStep(g, s, t1), send, calls + 1, sleeps, outcome)
  {
  }

  /** One iteration of Run within the budget whose call fails in transport: the retry step follows. */
  lemma RunOnTransportFailure(g: GuardView, s: ServiceView, t: TicketView, send: Client, calls: nat, sleeps: nat, ans: Option<string>)
    requires Runnable(s, t, ans) && t.retries <= s.retries
    requires send(calls, t.request.value).TransportFailure?
    ensures Run(g, s, t, send, calls, sleeps, ans) ==
              AfterRetry(g, s, RetryStep(g, s, t), send, calls + 1, sleeps, send(calls, t.request.value))
  {
  }

  /** A successful retry step after a transport failure goes round the loop again. */
  lemma AfterRetryContinues(g: GuardView, s: ServiceView, st: Stepped, send: Client, calls: nat, sleeps: nat, outcome: Outcome)
    requires st.result.Success? && s.validator.Some? && st.ticket.request.Some? && st.ticket.node != null && st.ticket.retries > 0
    requires outcome.TransportFailure?
    ensures AfterRetry(g, s, st, send, calls, sleeps, outcome) ==
              Run(g, s, st.ticket, send, calls, sleeps + SleepCount(st.result.value), Some(outcome.reason))
  {
  }

  /** After a transport failure and a successful retry step to `next`, Run goes round again from `next`. */
  lemma RunContinues(g: GuardView, s: ServiceView, t: TicketView, send: Client, calls: nat, sleeps: nat, ans: Option<string>,
                     next: TicketView, slept: bool)
    requires Runnable(s, t, ans) && t.retries <= s.retries
    requires send(calls, t.request.value).TransportFailure?
    requires RetryStep(g, s, t) == Stepped(next, Success(slept))
    ensures Run(g, s, t, send, calls, sleeps, ans) ==
              Run(g, s, next, send, calls + 1, sleeps + SleepCount(slept), Some(send(calls, t.request.value).reason))
  {
    RunOnTransportFailure(g, s, t, send, calls, sleeps, ans);
    AfterRetryContinues(g, s, RetryStep(g, s, t), send, calls + 1, sleeps, send(calls, t.request.value));
  }

  /** Run past the budget: the pending transport error is returned after the final decrement. */
  lemma RunAtLimit(g: GuardView, s: ServiceView, t: TicketView, send: Client, calls: nat, sleeps: nat, ans: Option<string>)
    requires Runnable(s, t, ans) && t.retries > s.retries
    ensures Run(g, s, t, send, calls, sleeps, ans) ==
              if ans.Some? then Finished(t.(retries := t.retries - 1), Some(Transport(ans.value)), calls, sleeps)
              else Finished(t, None, calls, sleeps)
  {
  }

  class RestGuard {
    var UserAgent: string
    var Services: map<string, RestService>
    var RetryCb: Option<RetryCallback>
    const NewRequestOk: RequestCheck

    /** The registry part of NewRestGuard: no services, no retry callback. */
    constructor (userAgent: string, newRequestOk: RequestCheck)
      ensures UserAgent == userAgent && Services == map[] && RetryCb.None?
      ensures NewRequestOk == newRequestOk
    {
      UserAgent, Services, RetryCb, NewRequestOk := userAgent, map[], None, newRequestOk;
    }

    function View(): GuardView
      reads this
    {
      GuardView(UserAgent, RetryCb, NewRequestOk)
    }

    function GetUserAgent(): string
      reads this
    {
      UserAgent
    }

    /** Appends a node to the named service, which must be registered. */
    method AddRestNode(srv: string, n: RestNode) returns (err: Option<Error>)
      modifies (if srv in Services then {Services[srv]} else {})`Nodes
      ensures err.Some? <==> srv !in Services
      ensures err.Some? ==> err.value == ServiceNotFound(srv)
      ensures srv in Services ==> Services[srv].Nodes == old(Services[srv].Nodes) + [n]
    {
      if srv !in Services {
        return Some(ServiceNotFound(srv));
      }
      Services[srv].AddNode(n);
      return None;
    }

    /** Registers `s` under `srv`, replacing any service already there. */
    method AddService(srv: string, s: RestService)
      modifies this`Services
      ensures Services == old(Services)[srv := s]
    {
      Services := Services[srv := s];
    }

    function GetService(srv: string): (r: Result<RestService, Error>)
      reads this
      ensures r.Success? <==> srv in Services
      ensures r.Success? ==> r.value == Services[srv]
      ensures r.Failure? ==> r.error == ServiceNotFound(srv)
    {
      if srv in Services then Success(Services[srv]) else Failure(ServiceNotFound(srv))
    }

    /** Builds the request of ticket `t` and stores it on the ticket. */
    method CreateRequest(t: RestTicket, verb: string, path: string) returns (r: Result<Request, Error>)
      modifies t
      ensures t.Service == old(t.Service) && t.Id == old(t.Id)
      ensures Prepare(View(), old(ServiceOf(t.Service)), old(t.View()), verb, path) == Prepared(t.View(), r)
    {
      if t.Service == null {
        return Failure(TicketWithoutService);
      }
      if |t.Service.Nodes| == 0 {
        return Failure(ServiceWithoutNodes);
      }
      if t.Service.RespValidatorCb.None? {
        return Failure(ServiceWithoutValidator);
      }
      if t.Request.Some? {
        t.Response := None;
      }
      t.Path := path;
      var rn: RestNode;
      if t.Node == null {
        rn := t.Service.Nodes[t.Retries % |t.Service.Nodes|];
        t.Node := rn;
      } else {
        rn := t.Node;
      }
      var url := JoinPath(rn.GetUrlPrefix(), path);
      if !NewRequestOk(verb, url) {
        return Failure(InvalidRequest(verb, url));
      }
      var req := Request(verb, url, UserAgentHeader(GetUserAgent()), None);
      t.Request := Some(req);
      return Success(req);
    }

    /** The handleRetry closure of Do: the result says whether it slept. */
    method HandleRetry(t: RestTicket) returns (r: Result<bool, Error>)
      requires t.Service != null && t.Request.Some? && t.Node != null
      modifies t
      ensures t.Service == old(t.Service) && t.Id == old(t.Id)
      ensures RetryStep(View(), t.Service.View(), old(t.View())) == Stepped(t.View(), r)
    {
      ghost var g := View();
      ghost var sv := t.Service.View();
      ghost var a := Advanced(t.View());
      t.Retries := t.Retries + 1;
      var currReq := t.Request.value;
      t.AddFail(t.Node);
      assert t.View() == a;
      if RetryCb.Some? {
        var choice := RetryCb.value(t.View());
        if choice.Failure? {
          return Failure(RetryCallbackFailed(choice.error));
        }
        t.Node := choice.value;
      } else {
        t.Node := null;
      }
      assert NextNode(g, a).Success? && t.View() == a.(node := NextNode(g, a).value);
      ghost var before := t.View();
      var created := CreateRequest(t, currReq.verb, t.Path);
      assert Prepare(g, Some(sv), before, currReq.verb, a.path) == Prepared(t.View(), created);
      if created.Failure? {
        return Failure(created.error);
      }
      t.Request := Some(created.value.(header := currReq.header, body := currReq.body));
      var sleep := t.Node in t.FailedNodes && t.Service.RetryIntervalMs > 0;
      if sleep && t.Service.RetryIntervalMs > MaxRetryIntervalMs {
        return Failure(InvalidRetryInterval(t.Service.RetryIntervalMs));
      }
      // time.Sleep(RetryIntervalMs) happens here when `sleep` holds
      return Success(sleep);
    }

    /**
     * One pass of the loop body of Do: a client call, then the retry step when
     * the call failed or its response was rejected. `done` says the loop ends
     * here (a response arrived, or the retry step failed with `err`); otherwise
     * `ans` is the transport error to report should the budget run out.
     */
    method Attempt(t: RestTicket, send: Client, calls: nat, ghost sleeps: nat, ghost pending: Option<string>)
      returns (done: bool, err: Option<Error>, calls': nat, ghost sleeps': nat, ans: Option<string>, ghost slept: bool)
      requires t.Service != null && Runnable(t.Service.View(), t.View(), pending)
      requires t.Retries <= t.Service.Retries
      modifies t
      ensures t.Service == old(t.Service) && t.Id == old(t.Id)
      ensures done ==> Run(View(), t.Service.View(), old(t.View()), send, calls, sleeps, pending) ==
                         Finished(t.View(), err, calls', sleeps')
      ensures !done ==>
                && Runnable(t.Service.View(), t.View(), ans) && t.Retries == old(t.Retries) + 1
                && send(calls, old(t.View()).request.value).TransportFailure?
                && RetryStep(View(), t.Service.View(), old(t.View())) == Stepped(t.View(), Success(slept))
                && calls' == calls + 1 && sleeps' == sleeps + SleepCount(slept)
                && ans == Some(send(calls, old(t.View()).request.value).reason)
    {
      ghost var g := View();
      ghost var sv := t.Service.View();
      RunUnfold(g, sv, t.View(), send, calls, sleeps, pending);
      var outcome := send(calls, t.Request.value);
      calls', sleeps' := calls + 1, sleeps;
      var valid := false;
      if outcome.TransportFailure? {
        ans := Some(outcome.reason);
      } else {
        ans := None;
        t.Response := Some(outcome.response);
        valid := t.Service.RespValidatorCb.value(t.View());
      }
      if valid {
        return true, None, calls', sleeps', ans, false;
      }
      var step := HandleRetry(t);
      if step.Failure? {
        return true, Some(step.error), calls', sleeps', ans, false;
      }
      slept := step.value;
      sleeps' := sleeps' + SleepCount(slept);
      // after a rejected response the loop breaks with no transport error pending: Do returns nil
      return outcome.Received?, None, calls', sleeps', ans, slept;
    }

    /**
     * Sends the ticket's request until a response arrives or the retry budget
     * of the service is spent; `calls` and `sleeps` count client calls and sleeps.
     */
    method Do(t: RestTicket, send: Client) returns (err: Option<Error>, calls: nat, ghost sleeps: nat)
      requires t.Service != null && Runnable(t.Service.View(), t.View(), None)
      modifies t
      ensures t.Service == old(t.Service) && t.Id == old(t.Id)
      ensures Run(View(), t.Service.View(), old(t.View()), send, 0, 0, None) == Finished(t.View(), err, calls, sleeps)
    {
      var s := t.Service;
      ghost var g := View();
      ghost var sv := s.View();
      ghost var t0 := t.View();
      var ans: Option<string> := None;
      calls, sleeps := 0, 0;
      while t.Retries <= s.Retries
        invariant t.Service == s && t.Id == old(t.Id) && s.View() == sv
        invariant Runnable(sv, t.View(), ans)
        invariant Run(g, sv, t.View(), send, calls, sleeps, ans) == Run(g, sv, t0, send, 0, 0, None)
        decreases Budget(sv, t.View())
      {
        ghost var before, calls0, sleeps0, ans0 := t.View(), calls, sleeps, ans;
        var done;
        ghost var slept;
        done, err, calls, sleeps, ans, slept := Attempt(t, send, calls, sleeps, ans);
        if done {
          return;
        }
        RunContinues(g, sv, before, send, calls0, sleeps0, ans0, t.View(), slept);
      }
      RunAtLimit(g, sv, t.View(), send, calls, sleeps, ans);
      if ans.Some? {
        t.Retries := t.Retries - 1;
        err := Some(Transport(ans.value));
      } else {
        err := None;
      }
    }
  }
}
