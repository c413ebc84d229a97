/**
 * The records of the `specs` package: an endpoint (RestNode), a named pool of
 * endpoints with its retry policy (RestService) and the mutable context of one
 * logical request (RestTicket).
 */
module Specs {
  import opened Wrappers
  import opened Http

  // ---------------------------------------------------------------------------
  // Nodes

  predicate EndsWithSlash(s: string) { |s| > 0 && s[|s| - 1] == '/' }

  predicate StartsWithSlash(s: string) { |s| > 0 && s[0] == '/' }

  /** The base address NewRestNode keeps: at most one trailing '/' is cut off. */
  function TrimTrailingSlash(burl: string): (r: string)
    ensures |r| == if EndsWithSlash(burl) then |burl| - 1 else |burl|
    ensures r == burl[..|r|]
  {
    if EndsWithSlash(burl) then burl[..|burl| - 1] else burl
  }

  /** Cutting the slash undoes appending one, whatever the address already ends with. */
  lemma TrimUndoesAppendedSlash(s: string)
    ensures TrimTrailingSlash(s + "/") == s
  {
    assert (s + "/")[..|s|] == s;
  }

  /** Exactly one slash goes: trimming twice is not trimming once. */
  lemma TrimRemovesOnlyOneSlash()
    ensures TrimTrailingSlash("a/") == "a"
    ensures TrimTrailingSlash("a//") == "a/"
    ensures TrimTrailingSlash("a") == "a"
  {
  }

  function Scheme(ssl: bool): string { if ssl then "https://" else "http://" }

  /** The scheme and the base address of a node: "https://" + base or "http://" + base. */
  function UrlPrefix(ssl: bool, base: string): string
  {
    Scheme(ssl) + base
  }

  /** The prefix starts with "http", has an 's' after it exactly when SSL is on, and ends with the base. */
  lemma UrlPrefixShape(ssl: bool, base: string)
    ensures var r := UrlPrefix(ssl, base);
            && |r| == |base| + (if ssl then 8 else 7)
            && r[|r| - |base|..] == base
            && r[..4] == "http" && (r[4] == 's' <==> ssl)
  {
    var r := UrlPrefix(ssl, base);
    assert r[|r| - |base|..] == base;
  }

  /** An endpoint. Its fields never change after construction. */
  class RestNode {
    const Name: string
    const BaseUrl: string
    const Ssl: bool

    /** NewRestNode. */
    constructor (name: string, burl: string, ssl: bool)
      ensures Name == name && Ssl == ssl
      ensures BaseUrl == TrimTrailingSlash(burl)
    {
      Name, BaseUrl, Ssl := name, TrimTrailingSlash(burl), ssl;
    }

    function GetUrlPrefix(): string
    {
      UrlPrefix(Ssl, BaseUrl)
    }
  }

  // ---------------------------------------------------------------------------
  // Tickets, seen as values

  /**
   * The fields of a ticket that the request engine reads and writes
   * (the identity and the owning service never change once the ticket exists).
   */
  datatype TicketView = TicketView(
    request: Option<Request>,
    response: Option<Response>,
    path: string,
    retries: nat,
    node: RestNode?,
    failed: seq<RestNode>)

  /** A response validator: it looks at the ticket whose response was just stored. */
  type Validator = TicketView -> bool

  /** The fields of a service that the request engine reads. */
  datatype ServiceView = ServiceView(
    nodes: seq<RestNode>,
    retries: int,
    retryIntervalMs: int,
    validator: Option<Validator>)

  predicate NoDuplicates(nodes: seq<RestNode>)
  {
    forall i, j :: 0 <= i < j < |nodes| ==> nodes[i] != nodes[j]
  }

  /** The failed-node list after recording `n` (membership is by reference). */
  function WithFail(failed: seq<RestNode>, n: RestNode): seq<RestNode>
  {
    if n in failed then failed else failed + [n]
  }

  /** Recording `n` keeps every recorded node in place and adds `n` and nothing else. */
  lemma WithFailRecords(failed: seq<RestNode>, n: RestNode)
    ensures var r := WithFail(failed, n);
            && n in r && failed <= r && |r| <= |failed| + 1
            && forall i :: 0 <= i < |r| ==> r[i] in failed || r[i] == n
  {
    var r := WithFail(failed, n);
    if n !in failed {
      assert r[|failed|] == n;
    }
  }

  /** Recording a node twice is recording it once; a known node changes nothing. */
  lemma AddFailIdempotent(failed: seq<RestNode>, n: RestNode)
    ensures n in failed ==> WithFail(failed, n) == failed
    ensures WithFail(WithFail(failed, n), n) == WithFail(failed, n)
  {
  }

  /** A new node goes at the end, and the list stays free of duplicates. */
  lemma AddFailKeepsNoDuplicates(failed: seq<RestNode>, n: RestNode)
    requires NoDuplicates(failed)
    ensures n !in failed ==> WithFail(failed, n) == failed + [n]
    ensures NoDuplicates(WithFail(failed, n))
  {
    if n !in failed {
      var r := failed + [n];
      forall i, j | 0 <= i < j < |r| ensures r[i] != r[j] {
        if j == |failed| {
          assert r[i] == failed[i];
        }
      }
    }
  }

  // ---------------------------------------------------------------------------
  // Services

  /** A ticket identifier: the 36-character text form of a UUID. */
  type TicketId = s: string | |s| == 36 witness "00000000-0000-0000-0000-000000000000"

  class RestService {
    var Name: string
    var Nodes: seq<RestNode>
    var Retries: int
    var RetryIntervalMs: int
    var RespValidatorCb: Option<Validator>

    /** NewRestService: no nodes, no retries, no validator. */
    constructor (n: string)
      ensures Name == n && Nodes == [] && Retries == 0 && RetryIntervalMs == 0
      ensures RespValidatorCb.None?
    {
      Name, Nodes, Retries, RetryIntervalMs, RespValidatorCb := n, [], 0, 0, None;
    }

    function View(): ServiceView
      reads this
    {
      ServiceView(Nodes, Retries, RetryIntervalMs, RespValidatorCb)
    }

    function GetName(): string
      reads this
    {
      Name
    }

    method SetName(n: string)
      modifies this`Name
      ensures GetName() == n
    {
      Name := n;
    }

    /** Appends a node; duplicates are kept. */
    method AddNode(n: RestNode)
      modifies this`Nodes
      ensures Nodes == old(Nodes) + [n]
    {
      Nodes := Nodes + [n];
    }

    function GetNodes(): seq<RestNode>
      reads this
    {
      Nodes
    }

    /** A fresh ticket on this service; `id` is the generated UUID. */
    method GetTicket(id: TicketId) returns (t: RestTicket)
      ensures fresh(t)
      ensures t.Id == id && t.Id != "" && t.Service == this
      ensures t.View() == TicketView(None, None, "", 0, null, [])
    {
      t := new RestTicket(id, this);
    }
  }

  // ---------------------------------------------------------------------------
  // Tickets

  class RestTicket {
    var Id: string
    var Request: Option<Request>
    var Response: Option<Response>
    var Path: string
    var Retries: nat
    var Service: RestService?
    var Node: RestNode?
    var FailedNodes: seq<RestNode>

    constructor (id: string, service: RestService?)
      ensures Id == id && Service == service
      ensures View() == TicketView(None, None, "", 0, null, [])
    {
      Id, Service := id, service;
      Request, Response, Path, Retries, Node, FailedNodes := None, None, "", 0, null, [];
    }

    function View(): TicketView
      reads this
    {
      TicketView(Request, Response, Path, Retries, Node, FailedNodes)
    }

    function GetId(): string reads this { Id }
    function GetRetries(): nat reads this { Retries }
    function GetService(): RestService? reads this { Service }
    function GetNode(): RestNode? reads this { Node }
    function GetRequest(): Option<Request> reads this { Request }
    function GetResponse(): Option<Response> reads this { Response }

    /** Releases the ticket: the response body is closed when there is a response. */
    method Rip() returns (closesBody: bool)
      ensures closesBody <==> GetResponse().Some?
    {
      closesBody := Response.Some?;
    }

    /** Records `n` as failed unless it is already recorded. */
    method AddFail(n: RestNode)
      modifies this`FailedNodes
      ensures FailedNodes == WithFail(old(FailedNodes), n)
    {
      var present := n in FailedNodes;
      if !present {
        FailedNodes := FailedNodes + [n];
      }
    }
  }
}
