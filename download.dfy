/**
 * The download path of the `guard` package: a writer that tees every chunk to
 * a file and to an MD5 accumulator, io.Copy from a response body into it, and
 * DoDownload, which wraps both around the client call.
 *
 * The file system is an oracle (`FileSystem`): whether a path can be created,
 * and what writing some bytes at some offset of the file does. MD5 followed by
 * "%x" formatting is an uninterpreted function of the bytes hashed (`Digest`).
 */
module Download {
  import opened Wrappers
  import opened Http
  import opened Specs
  import opened Guard

  /** MD5 of the bytes fed to the hasher, formatted as lower-case hex. */
  type Digest = seq<byte> -> string

  /** What fd.Write does with a chunk: all of it written, or an error after some of its bytes. */
  datatype WriteOutcome = Written | WriteFailed(partial: nat, reason: string)

  /**
   * The file system: whether os.Create succeeds on a path, what fd.Write does
   * with a chunk at a file offset, and what closing an open file returns.
   */
  datatype FileSystem = FileSystem(
    creatable: string -> bool,
    write: (nat, seq<byte>) -> WriteOutcome,
    closeError: Option<string>)

  /** The error os.File returns once the file is closed. */
  const ErrClosed: string := "file already closed"

  /** The artefact descriptor a successful download returns. */
  datatype RestArtefact = RestArtefact(path: string, size: int, md5: string)

  // ---------------------------------------------------------------------------
  // Chunks

  /** The bytes of `chunks`, one after another. */
  function Concat(chunks: seq<seq<byte>>): seq<byte>
  {
    if |chunks| == 0 then [] else chunks[0] + Concat(chunks[1..])
  }

  /** The number of bytes in `chunks`. */
  function TotalLength(chunks: seq<seq<byte>>): nat
  {
    if |chunks| == 0 then 0 else |chunks[0]| + TotalLength(chunks[1..])
  }

  lemma {:induction false} ConcatLength(chunks: seq<seq<byte>>)
    ensures |Concat(chunks)| == TotalLength(chunks)
    decreases |chunks|
  {
    if |chunks| > 0 {
      ConcatLength(chunks[1..]);
    }
  }

  lemma {:induction false} ConcatAppend(chunks: seq<seq<byte>>, p: seq<byte>)
    ensures Concat(chunks + [p]) == Concat(chunks) + p
    ensures TotalLength(chunks + [p]) == TotalLength(chunks) + |p|
    decreases |chunks|
  {
    if |chunks| == 0 {
      assert chunks + [p] == [p];
    } else {
      assert (chunks + [p])[1..] == chunks[1..] + [p];
      ConcatAppend(chunks[1..], p);
    }
  }

  // ---------------------------------------------------------------------------
  // The writer, seen as a value

  /**
   * The state of an ArtefactWriter: the bytes in its file, the bytes fed to
   * its hasher, its byte counter and whether its file is closed.
   */
  datatype WriterView = WriterView(file: seq<byte>, hashed: seq<byte>, count: int, closed: bool)

  datatype Wrote = Wrote(view: WriterView, n: nat, err: Option<string>)

  /**
   * ArtefactWriter.Write of `p`: fd.Write first; if it fails, its error and
   * byte count are returned and neither the counter nor the hasher sees `p`;
   * otherwise the counter grows by |p|, then the hasher takes `p`.
   */
  function WriteStep(fs: FileSystem, w: WriterView, p: seq<byte>): (s: Wrote)
    ensures s.n <= |p| && w.file <= s.view.file && s.view.closed == w.closed
  {
    if w.closed then Wrote(w, 0, Some(ErrClosed))
    else match fs.write(|w.file|, p)
      case WriteFailed(partial, reason) =>
        var k := if partial <= |p| then partial else |p|;
        Wrote(w.(file := w.file + p[..k]), k, Some(reason))
      case Written =>
        var counted := w.(file := w.file + p, count := w.count + |p|);
        Wrote(counted.(hashed := counted.hashed + p), |p|, None)
  }

  /** A write adds to the counter and to the hasher exactly what it reports written without error. */
  lemma WriteStepAccounts(fs: FileSystem, w: WriterView, p: seq<byte>)
    ensures var s := WriteStep(fs, w, p);
            && (s.err.None? <==> !w.closed && fs.write(|w.file|, p).Written?)
            && (s.err.None? ==> s.n == |p| && s.view == w.(file := w.file + p, hashed := w.hashed + p, count := w.count + |p|))
            && (s.err.Some? ==> s.view.hashed == w.hashed && s.view.count == w.count && s.view.closed == w.closed)
            && (s.err.Some? ==> s.n <= |p| && s.view.file == w.file + p[..s.n])
  {
  }

  datatype Copied = Copied(view: WriterView, written: nat, err: Option<string>)

  /**
   * io.Copy of a body into a writer: each chunk the body yields is written in
   * turn (an empty read writes nothing); the first write error ends the copy
   * with that error; after the last chunk the body's read error, if any, is
   * the result (EOF is not an error).
   */
  function CopyAll(fs: FileSystem, w: WriterView, chunks: seq<seq<byte>>, readError: Option<string>): (c: Copied)
    ensures w.file <= c.view.file && c.view.closed == w.closed
    ensures c.written <= TotalLength(chunks)
    decreases |chunks|
  {
    if |chunks| == 0 then Copied(w, 0, readError)
    else if |chunks[0]| == 0 then CopyAll(fs, w, chunks[1..], readError)
    else
      var s := WriteStep(fs, w, chunks[0]);
      if s.err.Some? then Copied(s.view, s.n, s.err)
      else
        var rest := CopyAll(fs, s.view, chunks[1..], readError);
        Copied(rest.view, s.n + rest.written, rest.err)
  }

  /**
   * When every write succeeds on an open writer, the copy feeds the whole body
   * to the counter and the hasher, and reports exactly the body's read error.
   */
  lemma {:induction false} CopyAllWritesEverything(fs: FileSystem, w: WriterView, chunks: seq<seq<byte>>, readError: Option<string>)
    requires !w.closed
    requires forall off, p :: fs.write(off, p).Written?
    ensures var c := CopyAll(fs, w, chunks, readError);
            && c.err == readError
            && c.written == TotalLength(chunks)
            && c.view.hashed == w.hashed + Concat(chunks)
            && c.view.count == w.count + TotalLength(chunks)
            && !c.view.closed
    decreases |chunks|
  {
    if |chunks| > 0 {
      if |chunks[0]| == 0 {
        CopyAllWritesEverything(fs, w, chunks[1..], readError);
        assert Concat(chunks) == Concat(chunks[1..]);
      } else {
        var s := WriteStep(fs, w, chunks[0]);
        CopyAllWritesEverything(fs, s.view, chunks[1..], readError);
        assert w.hashed + chunks[0] + Concat(chunks[1..]) == w.hashed + Concat(chunks);
      }
    }
  }

  /**
   * Whatever the file system does, the counter and the hasher stay in step:
   * the counter grows by exactly the number of bytes hashed, and a copy that
   * ends without error has hashed the whole body.
   */
  lemma {:induction false} CopyAllKeepsCountInStep(fs: FileSystem, w: WriterView, chunks: seq<seq<byte>>, readError: Option<string>)
    ensures var c := CopyAll(fs, w, chunks, readError);
            && w.hashed <= c.view.hashed
            && c.view.count - |c.view.hashed| == w.count - |w.hashed|
            && (c.err.None? ==> c.view.hashed == w.hashed + Concat(chunks) && c.written == TotalLength(chunks))
    decreases |chunks|
  {
    if |chunks| > 0 {
      var s := WriteStep(fs, w, chunks[0]);
      if |chunks[0]| == 0 {
        CopyAllKeepsCountInStep(fs, w, chunks[1..], readError);
        assert Concat(chunks) == Concat(chunks[1..]);
      } else if s.err.None? {
        CopyAllKeepsCountInStep(fs, s.view, chunks[1..], readError);
        assert w.hashed + chunks[0] + Concat(chunks[1..]) == w.hashed + Concat(chunks);
      }
    }
  }

  // ---------------------------------------------------------------------------
  // The writer

  class ArtefactWriter {
    const path: string
    const fs: FileSystem
    const digest: Digest
    var file: seq<byte>
    var hashed: seq<byte>
    var count: int
    var closed: bool
    /** The chunks written without error, in order. */
    ghost var chunks: seq<seq<byte>>

    /** The counter and the hasher account for exactly the chunks written without error. */
    ghost predicate Valid()
      reads this
    {
      count == TotalLength(chunks) && hashed == Concat(chunks)
    }

    function View(): WriterView
      reads this
    {
      WriterView(file, hashed, count, closed)
    }

    /** The writer NewArtefactWriter returns once os.Create has succeeded. */
    constructor (file: string, fs: FileSystem, digest: Digest)
      ensures path == file && this.fs == fs && this.digest == digest
      ensures View() == WriterView([], [], 0, false) && chunks == []
      ensures Valid()
    {
      path, this.fs, this.digest := file, fs, digest;
      this.file, hashed, count, closed := [], [], 0, false;
      chunks := [];
    }

    method Write(p: seq<byte>) returns (n: nat, err: Option<string>)
      requires Valid()
      modifies this
      ensures Valid()
      ensures Wrote(View(), n, err) == WriteStep(fs, old(View()), p)
      ensures chunks == if err.None? then old(chunks) + [p] else old(chunks)
    {
      if closed {
        return 0, Some(ErrClosed);
      }
      match fs.write(|file|, p)
      case WriteFailed(partial, reason) =>
        n := if partial <= |p| then partial else |p|;
        file := file + p[..n];
        return n, Some(reason);
      case Written =>
        file := file + p;
        n := |p|;
        count := count + |p|;
        // hash.Hash.Write never returns an error
        hashed := hashed + p;
        ConcatAppend(chunks, p);
        chunks := chunks + [p];
        return n, None;
    }

    /** Closes the file; closing it again is an error. */
    method Close() returns (err: Option<string>)
      modifies this`closed
      ensures closed
      ensures err == if old(closed) then Some(ErrClosed) else fs.closeError
    {
      if closed {
        return Some(ErrClosed);
      }
      closed := true;
      return fs.closeError;
    }

    function MD5(): string
      reads this
    {
      digest(hashed)
    }

    function GetPath(): string { path }

    function GetCount(): int
      reads this
    {
      count
    }
  }

  /** The counter is the total size of the chunks written without error, and MD5 their digest. */
  lemma WriterTotals(w: ArtefactWriter)
    requires w.Valid()
    ensures w.GetCount() == TotalLength(w.chunks) == |Concat(w.chunks)|
    ensures w.MD5() == w.digest(Concat(w.chunks))
  {
    ConcatLength(w.chunks);
  }

  /** os.Create then a writer at count 0; a path that cannot be created is an error. */
  method NewArtefactWriter(file: string, fs: FileSystem, digest: Digest) returns (r: Result<ArtefactWriter, Error>)
    ensures r.Failure? <==> !fs.creatable(file)
    ensures r.Failure? ==> r.error == CreateFile(file)
    ensures r.Success? ==> fresh(r.value) && r.value.Valid() && r.value.chunks == []
    ensures r.Success? ==> r.value.path == file && r.value.fs == fs && r.value.digest == digest
    ensures r.Success? ==> r.value.View() == WriterView([], [], 0, false)
  {
    if !fs.creatable(file) {
      return Failure(CreateFile(file));
    }
    var w := new ArtefactWriter(file, fs, digest);
    return Success(w);
  }

  /** io.Copy(w, body): the loop over the chunks the body yields. */
  method CopyBody(w: ArtefactWriter, body: Body) returns (written: nat, err: Option<string>)
    requires w.Valid()
    modifies w
    ensures w.Valid()
    ensures Copied(w.View(), written, err) == CopyAll(w.fs, old(w.View()), body.chunks, body.readError)
  {
    ghost var v0 := w.View();
    written := 0;
    var i := 0;
    while i < |body.chunks|
      invariant 0 <= i <= |body.chunks|
      invariant w.Valid()
      invariant var rest := CopyAll(w.fs, w.View(), body.chunks[i..], body.readError);
                Copied(rest.view, written + rest.written, rest.err) == CopyAll(w.fs, v0, body.chunks, body.readError)
      decreases |body.chunks| - i
    {
      var chunk := body.chunks[i];
      assert body.chunks[i..][1..] == body.chunks[i + 1..];
      if |chunk| > 0 {
        var n, ew := w.Write(chunk);
        written := written + n;
        if ew.Some? {
          return written, ew;
        }
      }
      i := i + 1;
    }
    return written, body.readError;
  }

  /** What the deferred client call of DoDownload did: failed, or left the ticket with a response (or none). */
  datatype ClientCall = CallFailed(reason: string) | CallDone(response: Option<Response>)

  /** The result of DoDownload, as a function of the file system, the client call and the digest. */
  function DownloadResult(fs: FileSystem, digest: Digest, artefactPath: string, call: ClientCall): (r: Result<RestArtefact, Error>)
    ensures !fs.creatable(artefactPath) ==> r == Failure(CreateFile(artefactPath))
    ensures r.Success? ==> r.value.path == artefactPath
  {
    if !fs.creatable(artefactPath) then Failure(CreateFile(artefactPath))
    else match call
      case CallFailed(reason) => Failure(ClientFailed(reason))
      case CallDone(response) =>
        if response.None? then Failure(InvalidResponse)
        else if response.value.statusCode != 200 then Failure(ResponseCode(response.value.statusCode))
        else
          var c := CopyAll(fs, WriterView([], [], 0, false), response.value.body.chunks, response.value.body.readError);
          if c.err.Some? then Failure(WriteFile(artefactPath, c.err.value))
          else Success(RestArtefact(artefactPath, c.view.count, digest(c.view.hashed)))
  }

  /**
   * A download succeeds only on a status of exactly 200 (201 included among
   * the rejected), and then describes the artefact by its path, the size of
   * the whole body and the digest of the whole body.
   */
  lemma DownloadSucceedsOnlyOn200(fs: FileSystem, digest: Digest, artefactPath: string, call: ClientCall)
    ensures var r := DownloadResult(fs, digest, artefactPath, call);
            r.Success? ==>
              && fs.creatable(artefactPath)
              && call.CallDone? && call.response.Some? && call.response.value.statusCode == 200
              && r.value.path == artefactPath
              && r.value.size == TotalLength(call.response.value.body.chunks)
              && r.value.md5 == digest(Concat(call.response.value.body.chunks))
  {
    if DownloadResult(fs, digest, artefactPath, call).Success? {
      var body := call.response.value.body;
      CopyAllKeepsCountInStep(fs, WriterView([], [], 0, false), body.chunks, body.readError);
      ConcatLength(body.chunks);
      assert [] + Concat(body.chunks) == Concat(body.chunks);
    }
  }

  /**
   * A 200 response whose body of N bytes reads to EOF, with every write
   * succeeding, yields an artefact of size N whose digest is that of the N bytes.
   */
  lemma DownloadOfWholeBody(fs: FileSystem, digest: Digest, artefactPath: string, chunks: seq<seq<byte>>)
    requires fs.creatable(artefactPath)
    requires forall off, p :: fs.write(off, p).Written?
    ensures DownloadResult(fs, digest, artefactPath, CallDone(Some(Response(200, Body(chunks, None)))))
            == Success(RestArtefact(artefactPath, TotalLength(chunks), digest(Concat(chunks))))
  {
    CopyAllWritesEverything(fs, WriterView([], [], 0, false), chunks, None);
    assert [] + Concat(chunks) == Concat(chunks);
  }

  /**
   * DoDownload: create the file first, then run the client call, reject a
   * missing response or a status other than 200, copy the body into the
   * writer and describe the artefact. The writer, once created, is closed on
   * every path (the error of that deferred close is dropped).
   */
  method DoDownload(t: RestTicket, artefactPath: string, fs: FileSystem, digest: Digest, call: ClientCall)
    returns (r: Result<RestArtefact, Error>, ghost w: ArtefactWriter?)
    modifies t`Response
    ensures r == DownloadResult(fs, digest, artefactPath, call)
    ensures t.Response == if fs.creatable(artefactPath) && call.CallDone? then call.response else old(t.Response)
    ensures w == null <==> !fs.creatable(artefactPath)
    ensures w != null ==> fresh(w) && w.closed && w.path == artefactPath
  {
    var created := NewArtefactWriter(artefactPath, fs, digest);
    if created.Failure? {
      return Failure(created.error), null;
    }
    var aw := created.value;
    w := aw;
    if call.CallFailed? {
      var _ := aw.Close();
      return Failure(ClientFailed(call.reason)), w;
    }
    t.Response := call.response;
    if t.Response.None? {
      var _ := aw.Close();
      return Failure(InvalidResponse), w;
    }
    if t.Response.value.statusCode != 200 {
      var _ := aw.Close();
      return Failure(ResponseCode(t.Response.value.statusCode)), w;
    }
    var _, err := CopyBody(aw, t.Response.value.body);
    if err.Some? {
      var _ := aw.Close();
      return Failure(WriteFile(artefactPath, err.value)), w;
    }
    r := Success(RestArtefact(artefactPath, aw.GetCount(), aw.MD5()));
    var _ := aw.Close();
  }
}
