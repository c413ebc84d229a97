# rest-guard in Dafny

rest-guard is a Go library that sends HTTP requests to a named service made of
several endpoints (nodes). It selects nodes round-robin, retries failed calls
up to a per-service budget, and can stream a response body to a file while
counting its bytes and computing its MD5. This project models its request
engine, its records and its download writer. It proves what each operation
leaves behind, and what the retry loop guarantees over a whole run.

Modules:

- `Wrappers` (wrappers.dfy): `Option` and `Result`.
- `Http` (http.dfy): requests, responses, and bodies as sequences of byte
  chunks with an optional read error. It also holds the outcome of a client
  call. The client itself is a function parameter `(call number, request) -> outcome`.
- `Specs` (specs.dfy): the records.
  - `RestNode` is an immutable endpoint. The constructor cuts one trailing '/'
    from the base address. `GetUrlPrefix` adds the scheme.
  - `RestService` is a class whose methods update its fields in place
    (`SetName`, `AddNode`) and hand out fresh tickets (`GetTicket`).
  - `RestTicket` is the mutable context of one logical request (`AddFail`, `Rip`, the getters).
  - `TicketView` and `ServiceView` are the value views of the ticket and the
    service that the engine reads and writes.
- `Guard` (guard.dfy): the `RestGuard` class.
  - It keeps a service registry (`AddService`, `GetService`, `AddRestNode`,
    `GetUserAgent`).
  - `CreateRequest` builds a request.
  - `HandleRetry` is the retry closure of `Do`.
  - `Do` is the retry loop, with `Attempt` as its loop body.
  - Each method that changes the ticket equates the ticket's new view with a
    pure function of the old one: `Prepare`, `RetryStep`, `Run`/`AfterRetry`.
- `GuardProperties` (guard_properties.dfy): what `Run`, and hence `Do`, guarantees.
- `Download` (download.dfy): downloading to a file.
  - `ArtefactWriter` is a class that tees every chunk to a file and to an MD5
    accumulator.
  - `CopyBody` is the `io.Copy` loop.
  - `DoDownload` runs the client call and the copy. The writer is closed on
    every path once it exists.

The model follows the code where the library's documentation or tests say otherwise:

- A validator returns only a boolean.
- When the validator rejects a response, `Do` runs one retry step and then
  leaves the loop without sending another call (guard.go:184-191). If the step
  fails, `Do` returns the step's error (guard.go:186-189). Otherwise it returns
  nil, and the step has rebuilt the request, which clears the stored response.
- Round-robin selection indexes the full node list; nothing is filtered out as disabled.
- `NewRestService` installs no validator.

## Model

| member | source | states |
|---|---|---|
| Specs.TrimTrailingSlash | pkg/specs/node.go:12-14 | The result is the input with its last character dropped exactly when that character is '/', and otherwise the input unchanged; it is always a prefix of the input |
| Specs.TrimUndoesAppendedSlash | pkg/specs/node.go:12-14 | Cutting the slash undoes appending one, whatever the address already ended with |
| Specs.TrimRemovesOnlyOneSlash | pkg/specs/node.go:12-14 | Exactly one slash goes: "a/" becomes "a", "a//" becomes "a/", "a" stays "a" |
| Specs.RestNode.constructor | pkg/specs/node.go:11-20 | NewRestNode keeps the name and the SSL flag as given, and stores the base address with at most one trailing '/' removed |
| Specs.UrlPrefixShape | pkg/specs/node.go:22-33 | The prefix is "https://" or "http://" followed by the base address: its length is the base's plus 8 or 7, it starts with "http", has 's' next exactly when SSL is on, and ends with the base |
| Specs.WithFail | pkg/specs/ticket.go:28-33 | By definition, the list unchanged when n is already in it (by reference), otherwise the list with n appended. It has no contract of its own; WithFailRecords, AddFailIdempotent and AddFailKeepsNoDuplicates state its properties |
| Specs.WithFailRecords | pkg/specs/ticket.go:28-33 | After recording n, n is in the list, every earlier entry keeps its place, at most one entry is added, and nothing but n is added |
| Specs.AddFailIdempotent | pkg/specs/ticket.go:29-30 | Recording an already recorded node changes nothing, so recording twice is recording once |
| Specs.AddFailKeepsNoDuplicates | pkg/specs/ticket.go:28-33 | A node not yet recorded goes at the end, and a duplicate-free list stays duplicate-free |
| Specs.RestTicket.AddFail | pkg/specs/ticket.go:28-33 | The failed-node list becomes its old value with n recorded (membership by reference); no other field changes |
| Specs.RestTicket.Rip | pkg/specs/ticket.go:22-26 | The response body is closed exactly when a response is stored; no field changes |
| Specs.RestTicket.constructor | pkg/specs/definition.go:11-20 | A new ticket has the given id and service, no request, response or node, an empty path, zero retries and no failed nodes |
| Specs.RestService.constructor | pkg/specs/service.go:11-17 | NewRestService has the given name, no nodes, zero retries, a zero interval and no validator |
| Specs.RestService.SetName | pkg/specs/service.go:19-20 | GetName after SetName returns the name set; nothing else changes |
| Specs.RestService.AddNode | pkg/specs/service.go:21-23 | The node list becomes the old list plus n at the end (duplicates kept); no other field changes |
| Specs.RestService.GetTicket | pkg/specs/service.go:29-39 | A fresh ticket on this service with a non-empty 36-character id, zero retries, no node, an empty path, no request or response and no failed nodes; the service is not modified |
| Guard.RestGuard.constructor | pkg/guard/guard.go:51-55 | The registry part of NewRestGuard: the configured user agent, no services, no retry callback |
| Guard.RestGuard.AddRestNode | pkg/guard/guard.go:65-74 | An error exactly when the service name is not registered; otherwise the node is appended to that service and no other object changes |
| Guard.RestGuard.AddService | pkg/guard/guard.go:76-78 | The registry maps the name to the service, replacing any earlier entry, and is otherwise unchanged |
| Guard.RestGuard.GetService | pkg/guard/guard.go:82-88 | The registered service for a known name; a service-not-found error exactly when the name is absent |
| Guard.JoinPath | pkg/guard/guard.go:117-122 | By definition, the prefix followed by the path, with a '/' put between them unless the path starts with one. It has no contract of its own; JoinPathShape states its shape |
| Guard.JoinPathShape | pkg/guard/guard.go:117-122 | The URL is the prefix, exactly one '/', then the rest of the path: a leading '/' of the path is used as the separator, otherwise one is inserted |
| Guard.RoundRobin | pkg/guard/guard.go:110 | By definition, the node at Retries mod len(Nodes). It has no contract of its own; RunRecordsRoundRobin and RunTriesEveryNode state what the rotation achieves |
| Guard.SelectNode | pkg/guard/guard.go:109-115 | By definition, the node already assigned to the ticket, or else the round-robin node. It has no contract of its own; PrepareSpec and RetryStepSpec state which node a request goes to |
| Guard.Prepare | pkg/guard/guard.go:90-136 | Building a request never changes the retry counter or the failed-node list, and a success stores the request on the ticket together with a node |
| Guard.PrepareSpec | pkg/guard/guard.go:90-136 | The three fast failures (no service, no nodes, no validator) leave the ticket exactly as it was; otherwise the assigned node is kept or Nodes[Retries mod len(Nodes)] is assigned, the path is set, a response left by an earlier request is cleared, and it succeeds exactly when the request constructor accepts the method and prefix+path; a failure keeps the old request; the request has no body, and carries a User-Agent header exactly when a user agent is configured |
| Guard.RestGuard.CreateRequest | pkg/guard/guard.go:90-136 | The ticket's new state and the result are those Prepare gives for its old state; the ticket's identity and service do not change |
| Guard.RetryStep | pkg/guard/guard.go:141-171 | A retry step increments Retries by exactly one and records the node just tried as failed, its errors are never transport errors, and on success the ticket has a request and a node |
| Guard.RetryStepSpec | pkg/guard/guard.go:141-171 | On success the next node is the callback's choice, or Nodes[Retries mod len(Nodes)] with the new count when there is no callback or it chose none; the request is rebuilt for the same method, path, headers and body against the new node and the response is cleared; it sleeps exactly when the new node has already failed and an interval is set; with a callback that answers, requests that are always accepted and an interval in range, it cannot fail |
| Guard.RestGuard.HandleRetry | pkg/guard/guard.go:141-171 | The ticket's new state and the result are those RetryStep gives for its old state |
| Guard.Run | pkg/guard/guard.go:173-199 | The loop of Do, by definition: it runs while Retries <= Service.Retries; an accepted response ends it with nil; any other attempt runs the retry step; past the budget a pending transport error is returned after Retries is decremented. It has no contract of its own; the GuardProperties lemmas state what it guarantees |
| Guard.AfterRetry | pkg/guard/guard.go:176-192 | The rest of one loop pass after the retry step, by definition: a failing step's error is returned at once; after a rejected response the loop breaks with nil; after a transport failure the loop goes round with that error pending. It has no contract of its own |
| Guard.RestGuard.Attempt | pkg/guard/guard.go:174-192 | One loop pass: when it ends the loop, the loop's whole run ends in its state; otherwise the call failed in transport, the retry step succeeded from the old state to the new, one call was made and that transport error is pending |
| Guard.RestGuard.Do | pkg/guard/guard.go:138-199 | The final ticket, the returned error and the number of client calls are those of Run from the ticket's initial state |
| GuardProperties.RunCallsWithinBudget | pkg/guard/guard.go:173-193 | Do ends, and makes at most Service.Retries + 1 - Retries client calls; it makes none exactly when Retries already exceeds Service.Retries |
| GuardProperties.RunExhaustsBudgetOnTransportFailures | pkg/guard/guard.go:173-199 | When every call fails in transport and no retry step can fail, Do makes exactly Service.Retries + 1 - Retries calls, returns the transport error of the last call, and leaves Retries equal to Service.Retries after the final decrement |
| GuardProperties.RunRecordsRoundRobin | pkg/guard/guard.go:141-193 | With no retry callback, rebuilds that cannot fail, every call failing in transport and the ticket on its round-robin node, every round-robin node for the counts from Retries up to Service.Retries ends up recorded as failed, and earlier failures are kept |
| GuardProperties.RunTriesEveryNode | pkg/guard/guard.go:141-193 | Under the same conditions, when the budget allows at least as many calls as the service has nodes, every node of the service is tried and recorded as failed |
| GuardProperties.RunTransportErrorLeavesRetriesAtLimit | pkg/guard/guard.go:195-197 | Whenever Do returns a transport error, Retries ends equal to Service.Retries |
| GuardProperties.RunKeepsFailedNodesUnique | pkg/guard/guard.go:144 | Over a whole run the failed-node list only grows and never holds a node twice |
| GuardProperties.RunReturnsRetryError | pkg/guard/guard.go:146-157 | A failing retry step ends Do with its own (non-transport) error after one call, with no sleep, with Retries incremented and not decremented, and with the tried node recorded |
| GuardProperties.RunStopsAtFirstResponse | pkg/guard/guard.go:181-192 | The first response ends the loop after one call and never yields a transport error; an accepted response is kept and Do returns nil; a rejected one costs exactly one retry step, and if that succeeds Do returns nil with the response cleared |
| GuardProperties.FailoverToSecondNode | pkg/guard/guard.go:173-193 | On a two-node service with one retry, a transport failure on the first node moves to the second by round-robin; its accepted response ends Do with nil, two calls, Retries 1, the first node recorded as failed |
| Download.ArtefactWriter.constructor | pkg/guard/download.go:32-37 | A new writer has the given path, an empty file, nothing hashed, count 0, and is open |
| Download.NewArtefactWriter | pkg/guard/download.go:25-38 | Fails with a create error exactly when the file cannot be created; otherwise returns a fresh open writer with count 0, nothing hashed and the given path |
| Download.WriteStep | pkg/guard/download.go:40-57 | A write never reports more than len(p) bytes written, only appends to the file, and leaves the writer open or closed as it was |
| Download.WriteStepAccounts | pkg/guard/download.go:40-57 | A write succeeds exactly when the file is open and the file write succeeds; then it reports all of p written, appends p to the file, adds len(p) to the count and p to the hash input; on failure the count and hash input are unchanged and the file holds only the bytes reported written |
| Download.ArtefactWriter.Write | pkg/guard/download.go:40-57 | The writer's new state and the returned count and error are those of WriteStep, and the invariant that the count and hash input account for exactly the chunks written without error is kept |
| Download.ArtefactWriter.Close | pkg/guard/download.go:59-61 | The file is closed afterwards; closing a closed file reports the closed-file error, otherwise the file system's close result |
| Download.WriterTotals | pkg/guard/download.go:63-68 | The count is the total length of the chunks written without error, and MD5 is the digest of their concatenation |
| Download.CopyBody | pkg/guard/download.go:91 | The copy loop leaves the writer in the state, and returns the byte count and error, that CopyAll gives: chunks in order, empty reads skipped, the first write error returned, otherwise the body's read error |
| Download.CopyAll | pkg/guard/download.go:91 | The copy only appends to the file, leaves the writer open or closed as it was, and never reports more bytes written than the body holds |
| Download.CopyAllWritesEverything | pkg/guard/download.go:91 | When every write succeeds, the copy reports exactly the body's read error, writes and counts every byte of the body, and hashes the whole body |
| Download.CopyAllKeepsCountInStep | pkg/guard/download.go:47-56 | Whatever the file system does, the count grows by exactly the number of bytes hashed, the hash input only grows, and a copy without error has hashed the whole body |
| Download.DownloadResult | pkg/guard/download.go:70-104 | A file that cannot be created fails the download with the create error, whatever the client does; a successful download names the requested path |
| Download.DownloadSucceedsOnlyOn200 | pkg/guard/download.go:70-104 | A download succeeds only when the file could be created, the client call succeeded with a response and the status is exactly 200; the artefact then has the given path, the size of the whole body and the digest of the whole body |
| Download.DownloadOfWholeBody | pkg/guard/download.go:86-103 | A 200 response whose body reads to the end, written without error, yields an artefact whose size is the body length and whose MD5 is the digest of the body |
| Download.DoDownload | pkg/guard/download.go:70-104 | The result is DownloadResult of the file system, the client call and the digest; the writer is created before the call, exists exactly when the file could be created, and is closed on every path; the ticket's response is the one the call left |

## Left out

- NewRestGuard's transport setup (timeouts, connection pool, TLS) and RestGuardConfig. Only the registry part is modelled, as `RestGuard`'s constructor.
- The network: `http.Client.Do` is the `Client` parameter. It is a deterministic function of the call number and the request.
- `http.NewRequest`: `RequestCheck` decides which method and URL pairs it accepts; the error it would give is `InvalidRequest`.
- `time.Sleep`: a step's sleep is counted, and no time passes.
- `time.ParseDuration`: the overflow check is the constant `MaxRetryIntervalMs`.
- The validator and the retry callback are pure functions of the ticket's view. In the code they receive the ticket (and the guard), so they could change them; such side effects are not modelled.
- `Guard.RestGuard.Do`: requires a service, a request, a node and a validator on the ticket. The code dereferences the service (guard.go:173) and sends the request (guard.go:174). It does not itself need the node, which only goes to AddFail (guard.go:144), or the validator, which is only called once a response arrives (guard.go:184). A ticket gets its request from CreateRequest, which refuses a service without nodes or a validator (guard.go:92-102) and always assigns a node (guard.go:109-115). So the model drops the tickets that have a request but no node or validator.
- `Guard.RestGuard.HandleRetry`: requires a service, a request and a node. It reads the old request's method (guard.go:154), and it runs only inside Do, after the service has been read. The node is there for the reason given for Do.
- The request body is a value, so a retry resends the same chunks. Reuse of a drained Go stream is not modelled.
- The int64 counters are unbounded: `Specs.RestTicket.Retries` is a `nat`, and `Download.ArtefactWriter.count` an `int`. The ticket counter cannot go negative, because the final decrement only follows a step that incremented it.
- UUID generation: `Specs.RestService.GetTicket` takes the id as a parameter.
- MD5 and its hex formatting are the uninterpreted `Digest`, and writing to the hasher cannot fail.
- `os.Create`, `fd.Write` and `fd.Close` are the `FileSystem` parameter.
- `io.Copy` is modelled as one write per chunk the body yields. Its buffer size and the ReaderFrom/WriterTo fast paths are not.
- `doClient` is not part of this model: DoDownload takes its outcome as a `ClientCall`.
- The error of DoDownload's deferred Close is dropped, as in the code.
- The RestArtefact record is a `(path, size, md5)` datatype, because its declaration is not part of this model.
- Not modelled because the shown sources do not define them: DoWithTimeout, the nodes' Disable flag, the ticket's RequestBodyCb, SetClosure/SetRequestCloseCb and a default validator.
- `HasNode` is not part of this model; membership in the failed-node list is by reference.
- The getters (`GetUserAgent`, `GetNodes`, `GetName`, the ticket getters, `MD5`, `GetPath`, `GetCount`) are plain functions that read a field. They carry no separate contract.
- `Specs.RestNode.GetUrlPrefix` builds the prefix by concatenation as `Specs.UrlPrefix`; its shape is stated by `Specs.UrlPrefixShape`.
