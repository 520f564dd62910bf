/**
  The transactional output stream of a SAF download
  (apps/android-app/src/android_saf_backend.rs, `JavaOutputStreamWriter` and
  `download_remote_file_to_saf`). Every call across the bridge may fail; `fails` decides
  which ones do, by the number of calls made before.
  */
module SafWriter {

  type byte = x: int | 0 <= x < 256

  /** Bridge calls: allocate or fill the Java buffer, or a method of the output stream. */
  datatype Call = Alloc | Fill | Write(chunk: seq<byte>) | Flush | Close | Abort

  datatype Logged = Logged(call: Call, ok: bool)

  const BUFFER_SIZE := 65536

  predicate IsTerminal(c: Call) {
    c.Close? || c.Abort?
  }

  function Payload(x: Logged): seq<byte> {
    if x.call.Write? && x.ok then x.call.chunk else []
  }

  /** The bytes that reached the stream. */
  function Delivered(log: seq<Logged>): seq<byte> {
    if log == [] then [] else Delivered(log[..|log| - 1]) + Payload(log[|log| - 1])
  }

  lemma DeliveredNext(log: seq<Logged>, x: Logged)
    ensures Delivered(log + [x]) == Delivered(log) + Payload(x)
  {
    assert (log + [x])[..|log|] == log;
  }

  ghost predicate ChunksFit(log: seq<Logged>) {
    forall i :: 0 <= i < |log| && log[i].call.Write? ==> 0 < |log[i].call.chunk| <= 65536
  }

  ghost predicate NoTerminal(log: seq<Logged>) {
    forall i :: 0 <= i < |log| ==> !IsTerminal(log[i].call)
  }

  /** Exactly one terminal call, the last: a close right after a successful flush, or an abort. */
  ghost predicate FinishedOnce(log: seq<Logged>) {
    && log != [] && NoTerminal(log[..|log| - 1]) && IsTerminal(log[|log| - 1].call)
    && (log[|log| - 1].call.Close? ==> |log| >= 2 && log[|log| - 2] == Logged(Flush, true))
  }

  class StreamWriter {
    const fails: nat -> bool
    var log: seq<Logged>
    var finalized: bool

    /** Before it is finalized the stream has had no terminal call, afterwards exactly one. */
    ghost predicate Valid()
      reads this
    {
      ChunksFit(log) && if finalized then FinishedOnce(log) else NoTerminal(log)
    }

    constructor (fails: nat -> bool)
      ensures Valid() && !finalized && log == [] && this.fails == fails
    {
      this.fails, log, finalized := fails, [], false;
    }

    /** One call across the bridge. */
    method Ask(c: Call) returns (ok: bool)
      requires c.Write? ==> 0 < |c.chunk| <= BUFFER_SIZE
      modifies this`log
      ensures log == old(log) + [Logged(c, ok)] && ok == !fails(|old(log)|)
      ensures Delivered(log) == Delivered(old(log)) + Payload(Logged(c, ok))
      ensures old(ChunksFit(log)) ==> ChunksFit(log)
    {
      ok := !fails(|log|);
      DeliveredNext(log, Logged(c, ok));
      log := log + [Logged(c, ok)];
    }

    /** One round of the loop in `write`. */
    method WriteChunk(chunk: seq<byte>) returns (ok: bool)
      requires Valid() && !finalized && 0 < |chunk| <= BUFFER_SIZE
      modifies this`log
      ensures Valid()
      ensures Delivered(log) == Delivered(old(log)) + if ok then chunk else []
    {
      hide Delivered;
      ghost var before := Delivered(log);
      ok := Ask(Fill);
      assert before + [] == before;
      if ok {
        ok := Ask(Write(chunk));
      }
    }

    /** `write`: the buffer goes out in order, in chunks no larger than the Java buffer. */
    method WriteAll(buf: seq<byte>) returns (ok: bool)
      requires Valid() && !finalized
      modifies this`log
      ensures Valid()
      ensures Delivered(old(log)) <= Delivered(log) <= Delivered(old(log)) + buf
      ensures ok ==> Delivered(log) == Delivered(old(log)) + buf
    {
      hide Delivered, ChunksFit, NoTerminal, FinishedOnce;
      var written := 0;
      while written < |buf|
        invariant 0 <= written <= |buf|
        invariant Valid()
        invariant Delivered(log) == Delivered(old(log)) + buf[..written]
      {
        var length := if |buf| - written < BUFFER_SIZE then |buf| - written else BUFFER_SIZE;
        ok := WriteChunk(buf[written..written + length]);
        if !ok {
          return;
        }
        assert buf[..written] + buf[written..written + length] == buf[..written + length];
        written := written + length;
      }
      assert buf[..written] == buf;
      ok := true;
    }

    method FlushStream() returns (ok: bool)
      requires Valid() && !finalized
      modifies this`log
      ensures Valid() && log == old(log) + [Logged(Flush, ok)] && Delivered(log) == Delivered(old(log))
    {
      ok := Ask(Flush);
    }

    /** `finish`: a failed flush leaves the writer unfinalized, so that dropping it aborts. */
    method Finish() returns (ok: bool)
      requires Valid() && !finalized
      modifies this
      ensures Valid() && Delivered(log) == Delivered(old(log))
      ensures ok ==> finalized
      ensures !finalized ==> log == old(log) + [Logged(Flush, false)]
      ensures finalized ==> log == old(log) + [Logged(Flush, true), Logged(Close, ok)]
    {
      ok := FlushStream();
      if !ok {
        return;
      }
      ghost var flushed := log;
      finalized := true;
      ok := Ask(Close);
      assert log[..|log| - 1] == flushed;
    }

    /** `abort`, and what dropping the writer does. */
    method AbortStream()
      requires Valid()
      modifies this
      ensures Valid() && finalized && Delivered(log) == Delivered(old(log))
      ensures log == if old(finalized) then old(log) else old(log) + [Logged(Abort, !fails(|old(log)|))]
    {
      if finalized {
        return;
      }
      ghost var before := log;
      finalized := true;
      var ok := Ask(Abort);
      assert log[..|log| - 1] == before;
    }
  }

  // ---------------------------------------------------------------------------
  // A download
  // ---------------------------------------------------------------------------

  datatype ClientStep = Put(buf: seq<byte>) | Sync

  function Sent(script: seq<ClientStep>): seq<byte> {
    if script == [] then []
    else
      var last := script[|script| - 1];
      Sent(script[..|script| - 1]) + if last.Put? then last.buf else []
  }

  lemma SentNext(script: seq<ClientStep>, i: nat)
    requires i < |script|
    ensures Sent(script[..i + 1]) == Sent(script[..i]) + if script[i].Put? then script[i].buf else []
    ensures Sent(script[..i + 1]) <= Sent(script)
    decreases |script| - i
  {
    assert script[..i + 1][..i] == script[..i];
    if i + 1 < |script| {
      SentNext(script, i + 1);
    } else {
      assert script[..i + 1] == script;
    }
  }

  /** The client hands over its buffers in turn and gives up at the first error. */
  method RunClient(w: StreamWriter, script: seq<ClientStep>) returns (ok: bool)
    requires w.Valid() && !w.finalized && Delivered(w.log) == []
    modifies w`log
    ensures w.Valid() && !w.finalized
    ensures Delivered(w.log) <= Sent(script)
    ensures ok ==> Delivered(w.log) == Sent(script)
  {
    assert script[..0] == [];
    for i := 0 to |script|
      invariant w.Valid()
      invariant Delivered(w.log) == Sent(script[..i]) <= Sent(script)
    {
      SentNext(script, i);
      match script[i] {
        case Put(buf) => ok := w.WriteAll(buf);
        case Sync => ok := w.FlushStream();
      }
      if !ok {
        return;
      }
    }
    assert script[..|script|] == script;
    ok := true;
  }

  /**
    `download_remote_file_to_saf` from the opened stream on. In every run the stream gets exactly
    one terminal call; it is a close only if all the client sent has reached the stream and was
    flushed, and the download succeeds only if that close did.
    */
  method Download(fails: nat -> bool, script: seq<ClientStep>, clientOk: bool)
    returns (log: seq<Logged>, ok: bool)
    ensures FinishedOnce(log) && ChunksFit(log)
    ensures Delivered(log) <= Sent(script)
    ensures log[|log| - 1].call.Close? ==> clientOk && Delivered(log) == Sent(script)
    ensures ok <==> log[|log| - 1] == Logged(Close, true)
  {
    var w := new StreamWriter(fails);
    ok := w.Ask(Alloc);
    if !ok {
      var _ := w.Ask(Abort);
      return w.log, false;
    }
    ok := RunClient(w, script);
    if ok && clientOk {
      ok := w.Finish();
    } else {
      ok := false;
    }
    w.AbortStream();
    log := w.log;
  }
}
