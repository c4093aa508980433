/** What reading a spool back recovers, when its metadata is accepted, and how much
    space all spools of a run may take. */
module LogRecovery {
  import opened Domain
  import opened LogSpool
  import opened LogCapture

  // ----- any sequence of writes -------------------------------------------------------------------

  datatype WriteCall = WriteCall(stream: byte, data: seq<byte>)

  /** The bytes a sequence of calls sent to one stream. */
  function Sent(calls: seq<WriteCall>, stream: byte): seq<byte> {
    if calls == [] then []
    else Sent(calls[..|calls| - 1], stream) + (if calls[|calls| - 1].stream == stream then calls[|calls| - 1].data else [])
  }

  function WriteAll(p: Policy, calls: seq<WriteCall>, crc: Checksum): (c: Capture)
    requires ValidPolicy(p)
    ensures c.policy == p && !c.finished
  {
    if calls == [] then NewCapture(p)
    else
      var last := calls[|calls| - 1];
      WriteKeeps(WriteAll(p, calls[..|calls| - 1], crc), last.stream, last.data, crc);
      Write(WriteAll(p, calls[..|calls| - 1], crc), last.stream, last.data, crc).0
  }

  lemma WriteKeeps(c: Capture, stream: byte, data: seq<byte>, crc: Checksum)
    requires HEADER < c.policy.entryBytes
    ensures var v := Write(c, stream, data, crc).0; v.policy == c.policy && v.finished == c.finished
  {
    if !c.finished && (stream == 1 || stream == 2) && c.failed.None? {
      FillKeeps(Seen(c, stream, |data|), stream, data, crc);
    }
  }

  lemma {:induction false} FillKeeps(c: Capture, stream: byte, data: seq<byte>, crc: Checksum)
    requires HEADER < c.policy.entryBytes
    ensures var v := Fill(c, stream, data, crc); v.policy == c.policy && v.finished == c.finished
    decreases |data|
  {
    hide Frame;
    var available := c.policy.operationBytes - c.retainedBytes - HEADER;
    if data != [] && available > 0 {
      var n := Min(Min(|data|, c.policy.entryBytes - HEADER), available);
      FillKeeps(Put(c, Chunk(stream, data[..n]), crc), stream, data[n..], crc);
    }
  }

  lemma WriteOk(c: Capture, chunks: seq<Chunk>, stdout: seq<byte>, stderr: seq<byte>, call: WriteCall, crc: Checksum) returns (next: seq<Chunk>)
    requires HEADER < c.policy.entryBytes && CaptureOk(c, chunks, stdout, stderr, crc) && !c.finished
    ensures CaptureOk(Write(c, call.stream, call.data, crc).0, next,
                      stdout + (if call.stream == 1 then call.data else []), stderr + (if call.stream == 2 then call.data else []), crc)
  {
    hide Framed, Fill, Stream;
    next := chunks;
    if call.stream == 1 || call.stream == 2 {
      var counted := Seen(c, call.stream, |call.data|);
      SeenFramed(c, chunks, call, crc);
      if c.failed.None? {
        var kept;
        next, kept := FillFramed(counted, chunks, call.stream, call.data, crc);
        assert kept == |call.data| ==> call.data[..kept] == call.data;
      }
    } else {
      assert stdout + [] == stdout && stderr + [] == stderr;
    }
  }

  lemma SeenFramed(c: Capture, chunks: seq<Chunk>, call: WriteCall, crc: Checksum)
    requires Framed(c, chunks, crc)
    ensures Framed(Seen(c, call.stream, |call.data|), chunks, crc)
  {
    hide Encode, Tally;
  }

  lemma {:induction false} WriteAllOk(p: Policy, calls: seq<WriteCall>, crc: Checksum) returns (chunks: seq<Chunk>)
    requires ValidPolicy(p)
    ensures CaptureOk(WriteAll(p, calls, crc), chunks, Sent(calls, 1), Sent(calls, 2), crc)
  {
    if calls == [] {
      chunks := [];
    } else {
      hide CaptureOk, Write;
      var rest, last := calls[..|calls| - 1], calls[|calls| - 1];
      chunks := WriteAllOk(p, rest, crc);
      chunks := WriteOk(WriteAll(p, rest, crc), chunks, Sent(rest, 1), Sent(rest, 2), last, crc);
    }
  }

  // ----- reading any bytes back -----------------------------------------------------------------------

  lemma {:induction false} BigEndianOfNumber(s: seq<byte>)
    ensures BigEndian(Number(s), |s|) == s
  {
    if s != [] {
      BigEndianOfNumber(s[..|s| - 1]);
    }
  }

  /** A frame the reader accepts is byte for byte the frame the writer would produce. */
  lemma HeadIsFrame(data: seq<byte>, index: nat, p: Policy, crc: Checksum)
    requires Head(data, index, p, crc).Some?
    ensures var c := Head(data, index, p, crc).value; data[..HEADER + |c.payload|] == Frame(c, index, crc)
  {
    hide BigEndian, Number;
    var c := Head(data, index, p, crc).value;
    BigEndianOfNumber(data[8..16]);
    BigEndianOfNumber(data[16..20]);
    BigEndianOfNumber(data[20..24]);
    HeaderFields(c, index, crc);
    var h := Header(c, index, crc);
    assert data[..HEADER] == data[..4] + [data[4]] + data[5..8] + data[8..16] + data[16..20] + data[20..24] + data[24..32];
    assert h == h[..4] + [h[4]] + h[5..8] + h[8..16] + h[16..20] + h[20..24] + h[24..32];
    assert data[..HEADER + |c.payload|] == data[..HEADER] + data[HEADER..HEADER + |c.payload|];
  }

  /** The loop of `readLogCapture`: counters and length of the checked prefix. */
  method ReadSpool(data: seq<byte>, p: Policy, crc: Checksum) returns (t: Totals, prefix: nat)
    ensures t == Tally(Parse(data, 0, p, crc), p.previewBytes)
    ensures prefix <= |data| && data[..prefix] == Encode(Parse(data, 0, p, crc), 0, crc)
  {
    hide Head, Frame, Count;
    t, prefix := Totals(0, 0, 0, 0, 0, []), 0;
    ghost var done: seq<Chunk> := [];
    var whole := false;
    assert data[0..] == data;
    while !whole
      invariant 0 <= prefix <= |data| && data[..prefix] == Encode(done, 0, crc)
      invariant t == Tally(done, p.previewBytes) && t.records == |done|
      invariant done + Parse(data[prefix..], t.records, p, crc) == Parse(data, 0, p, crc)
      invariant whole ==> Parse(data[prefix..], t.records, p, crc) == []
      decreases if whole then 0 else 1, |data| - prefix
    {
      var c := Head(data[prefix..], t.records, p, crc);
      if c.None? {
        whole := true;
      } else {
        var n := HEADER + |c.value.payload|;
        HeadIsFrame(data[prefix..], t.records, p, crc);
        EncodeAppend(done, c.value, 0, crc);
        TallyAppend(done, c.value, p.previewBytes);
        CountRecords(t, c.value, p.previewBytes);
        assert data[..prefix + n] == data[..prefix] + data[prefix..][..n];
        assert data[prefix..][n..] == data[prefix + n..];
        assert (done + [c.value]) + Parse(data[prefix + n..], t.records + 1, p, crc) == done + Parse(data[prefix..], t.records, p, crc);
        done := done + [c.value];
        t := Count(t, c.value, p.previewBytes);
        prefix := prefix + n;
      }
    }
    assert done + [] == done;
  }

  lemma CountRecords(t: Totals, c: Chunk, previewBytes: nat)
    ensures Count(t, c, previewBytes).records == t.records + 1
  {}

  /** Any write sequence, read back whole: all frames, every counter, and on each
      stream the sent bytes, all of them unless the limit cut the capture. */
  lemma ReadBack(p: Policy, calls: seq<WriteCall>, crc: Checksum)
    requires ValidPolicy(p)
    ensures var c := WriteAll(p, calls, crc); var chunks := Parse(c.file, 0, p, crc);
      && Encode(chunks, 0, crc) == c.file && |c.file| <= p.operationBytes
      && Stream(chunks, 1) <= Sent(calls, 1) && Stream(chunks, 2) <= Sent(calls, 2)
      && (c.failed.None? ==> Stream(chunks, 1) == Sent(calls, 1) && Stream(chunks, 2) == Sent(calls, 2))
      && Matches(c, Tally(chunks, p.previewBytes))
  {
    hide WriteAll, Encode, Stream, Sent, Tally, Parse;
    var chunks := WriteAllOk(p, calls, crc);
    FewChunks(chunks, 0, crc);
    RoundTrip(chunks, p, crc);
  }

  lemma {:induction false} FewChunks(chunks: seq<Chunk>, index: nat, crc: Checksum)
    ensures |chunks| <= |Encode(chunks, index, crc)|
  {
    if chunks != [] {
      FewChunks(chunks[1..], index + 1, crc);
    }
  }

  /** After a crash that kept only the first `k` bytes: the longest whole-frame prefix. */
  lemma CrashKeepsWholeFrames(p: Policy, calls: seq<WriteCall>, crc: Checksum, k: nat)
    requires ValidPolicy(p) && k <= |WriteAll(p, calls, crc).file|
    ensures var file := WriteAll(p, calls, crc).file; var chunks := Parse(file, 0, p, crc);
      Parse(file[..k], 0, p, crc) == chunks[..Whole(chunks, k)]
  {
    hide WriteAll, Encode, Stream, Sent, Tally, Parse;
    var chunks := WriteAllOk(p, calls, crc);
    FewChunks(chunks, 0, crc);
    RoundTrip(chunks, p, crc);
    ParseTruncated(chunks, 0, p, crc, k);
  }

  // ----- metadata ----------------------------------------------------------------------------------------

  datatype Metadata = Metadata(
    stdoutSeen: nat, stderrSeen: nat, retainedBytes: nat, retainedPayload: nat, records: nat, preview: seq<byte>,
    truncated: bool, reason: string, complete: bool, droppedKnown: bool, dropped: nat, requested: bool, observed: bool)

  /** `Finish` without an I/O error. */
  function Finish(c: Capture, complete: bool, reason: string, requested: bool, observed: bool): Metadata {
    var seen := SatAdd(c.stdoutSeen, c.stderrSeen);
    var given := if c.reason == "" then reason else c.reason;
    Metadata(c.stdoutSeen, c.stderrSeen, c.retainedBytes, c.retainedPayload, c.records, c.preview,
             c.truncated || !complete, if !complete && given == "" then "capture_gap" else given, complete, complete,
             if complete && seen >= c.retainedPayload then seen - c.retainedPayload else 0, requested, observed)
  }

  predicate KnownReason(r: string) {
    r == "" || r == "output_limit" || r == "spool_io_error" || r == "spool_sync_error" || r == "spool_close_error"
    || r == "capture_gap" || r == "runner_shutdown" || r == "capture_drain_timeout"
  }

  /** `validLogMetadata`; the subtraction is on uint64. */
  predicate ValidMetadata(m: Metadata, t: Totals) {
    if m.stdoutSeen < t.stdout || m.stderrSeen < t.stderr then false
    else if m.observed && !m.requested then false
    else if !KnownReason(m.reason) then false
    else if m.complete != m.droppedKnown then false
    else if !m.complete then m.truncated && m.reason != "" && m.dropped == 0
    else
      var dropped := (SatAdd(m.stdoutSeen, m.stderrSeen) - m.retainedPayload) % (MAX_UINT64 + 1);
      if dropped != m.dropped then false
      else if m.reason == "" then dropped == 0 && !m.truncated && !m.requested
      else m.truncated
  }

  /** The metadata of `readLogCapture` stands beside a spool it describes exactly. */
  predicate Accepts(m: Metadata, t: Totals, prefix: nat, size: nat) {
    && prefix == size && m.preview == t.preview && m.records == t.records && m.retainedBytes == t.bytes && m.retainedPayload == t.payload
    && ValidMetadata(m, t)
  }

  lemma {:induction false} TallyStreams(chunks: seq<Chunk>, previewBytes: nat)
    requires forall i :: 0 <= i < |chunks| ==> 1 <= chunks[i].stream <= 2
    ensures var t := Tally(chunks, previewBytes);
      && t.stdout == Min(|Stream(chunks, 1)|, MAX_UINT64) && t.stderr == Min(|Stream(chunks, 2)|, MAX_UINT64)
      && t.payload == |Stream(chunks, 1)| + |Stream(chunks, 2)| && t.payload <= t.bytes
  {
    if chunks != [] {
      TallyStreams(chunks[..|chunks| - 1], previewBytes);
    }
  }

  lemma AcceptedIffCaptured(c: Capture, chunks: seq<Chunk>, stdout: seq<byte>, stderr: seq<byte>, crc: Checksum,
                            complete: bool, reason: string, requested: bool, observed: bool)
    requires ValidPolicy(c.policy) && CaptureOk(c, chunks, stdout, stderr, crc)
    ensures Accepts(Finish(c, complete, reason, requested, observed), Tally(chunks, c.policy.previewBytes), |Encode(chunks, 0, crc)|, |c.file|)
      <==> (observed ==> requested) && (c.truncated || if complete then reason == "" && !requested else KnownReason(reason))
  {
    hide Encode, Tally, Stream;
    TallyStreams(chunks, c.policy.previewBytes);
  }

  /** What reading a published capture back makes of its metadata. */
  function Accepted(c: Capture, crc: Checksum, complete: bool, reason: string, requested: bool, observed: bool): bool {
    var chunks := Parse(c.file, 0, c.policy, crc);
    Accepts(Finish(c, complete, reason, requested, observed), Tally(chunks, c.policy.previewBytes), |Encode(chunks, 0, crc)|, |c.file|)
  }

  /** Exactly when the reader accepts what the writer published after any writes, by
      the arguments of `Finish`: no termination observed unrequested, and unless the
      output limit was hit, a complete capture ends without reason or termination while
      an incomplete one names a known reason. */
  lemma MetadataAcceptedIff(p: Policy, calls: seq<WriteCall>, crc: Checksum, complete: bool, reason: string, requested: bool, observed: bool)
    requires ValidPolicy(p)
    ensures Accepted(WriteAll(p, calls, crc), crc, complete, reason, requested, observed)
      <==> (observed ==> requested)
           && (WriteAll(p, calls, crc).truncated || if complete then reason == "" && !requested else KnownReason(reason))
  {
    hide WriteAll, Encode, Stream, Sent, Tally, Parse, Accepts, KnownReason, Finish;
    var chunks := WriteAllOk(p, calls, crc);
    FewChunks(chunks, 0, crc);
    RoundTrip(chunks, p, crc);
    AcceptedIffCaptured(WriteAll(p, calls, crc), chunks, Sent(calls, 1), Sent(calls, 2), crc, complete, reason, requested, observed);
  }

  /** Nothing is lost count of: after any writes, a complete capture accounts for every
      byte the process wrote, retained as parsed back or dropped. */
  lemma SeenIsRetainedPlusDropped(p: Policy, calls: seq<WriteCall>, crc: Checksum, reason: string, requested: bool, observed: bool)
    requires ValidPolicy(p) && |Sent(calls, 1)| + |Sent(calls, 2)| <= MAX_UINT64
    ensures var c := WriteAll(p, calls, crc); var chunks := Parse(c.file, 0, p, crc); var m := Finish(c, true, reason, requested, observed);
      |Sent(calls, 1)| + |Sent(calls, 2)| == m.retainedPayload + m.dropped && m.retainedPayload == |Stream(chunks, 1)| + |Stream(chunks, 2)|
  {
    hide WriteAll, Encode, Stream, Sent, Tally, Parse;
    var chunks := WriteAllOk(p, calls, crc);
    FewChunks(chunks, 0, crc);
    RoundTrip(chunks, p, crc);
    TallyStreams(chunks, p.previewBytes);
  }

  // ----- a write cut short ----------------------------------------------------------------------------

  /** An I/O error after the first `k` bytes of the next frame. */
  function ShortWrite(c: Capture, chunk: Chunk, k: nat, crc: Checksum): Capture
    requires k <= HEADER + |chunk.payload|
  {
    c.(file := c.file + Frame(chunk, c.records, crc)[..k], failed := Some(ErrAppend), truncated := true, reason := "spool_io_error")
  }

  lemma {:induction false} WholeAppend(chunks: seq<Chunk>, c: Chunk, index: nat, crc: Checksum, k: nat)
    requires k <= HEADER + |c.payload|
    ensures Whole(chunks + [c], |Encode(chunks, index, crc)| + k) == |chunks| + if k < HEADER + |c.payload| then 0 else 1
    decreases |chunks|
  {
    if chunks == [] {
      assert (chunks + [c])[1..] == [];
    } else {
      assert (chunks + [c])[1..] == chunks[1..] + [c];
      WholeAppend(chunks[1..], c, index + 1, crc, k);
    }
  }

  /** What the reader makes of a spool that ends in the first `k` bytes of a frame. */
  lemma ParseShort(c: Capture, chunks: seq<Chunk>, chunk: Chunk, k: nat, crc: Checksum)
    requires ValidPolicy(c.policy) && Framed(c, chunks, crc) && ValidChunk(chunk, c.policy) && k <= HEADER + |chunk.payload|
    ensures Parse(ShortWrite(c, chunk, k, crc).file, 0, c.policy, crc) == if k < HEADER + |chunk.payload| then chunks else chunks + [chunk]
  {
    hide Parse, Tally, Frame, Encode;
    var more := chunks + [chunk];
    FewChunks(chunks, 0, crc);
    EncodeAppend(chunks, chunk, 0, crc);
    WholeAppend(chunks, chunk, 0, crc, k);
    var all := Encode(more, 0, crc);
    assert all[..|c.file| + k] == c.file + Frame(chunk, |chunks|, crc)[..k];
    ParseTruncated(more, 0, c.policy, crc, |c.file| + k);
    assert more[..|chunks|] == chunks && more[..|more|] == more;
  }

  lemma ShortWriteAccepted(c: Capture, chunks: seq<Chunk>, stdout: nat, stderr: nat, chunk: Chunk, k: nat, crc: Checksum,
                           complete: bool, reason: string, requested: bool, observed: bool)
    requires ValidPolicy(c.policy) && Framed(c, chunks, crc) && ValidChunk(chunk, c.policy) && k <= HEADER + |chunk.payload|
    requires SeenOk(c, stdout, stderr) && |Stream(chunks, 1)| <= stdout && |Stream(chunks, 2)| <= stderr
    ensures Accepted(ShortWrite(c, chunk, k, crc), crc, complete, reason, requested, observed) <==> k == 0 && (observed ==> requested)
  {
    hide Encode, Tally, Stream, Parse, Frame;
    ParseShort(c, chunks, chunk, k, crc);
    TallyStreams(chunks, c.policy.previewBytes);
    if k == HEADER + |chunk.payload| {
      TallyAppend(chunks, chunk, c.policy.previewBytes);
      CountRecords(Tally(chunks, c.policy.previewBytes), chunk, c.policy.previewBytes);
    }
  }

  /** After any writes, a further write fails on some frame with `k` of its bytes on
      disk: the published metadata is accepted exactly when not one byte of that frame
      got there, however `Finish` was called. */
  lemma ShortWriteAcceptedIff(p: Policy, calls: seq<WriteCall>, stream: byte, data: seq<byte>, m: nat, chunk: Chunk, k: nat, crc: Checksum,
                              complete: bool, reason: string, requested: bool, observed: bool)
    requires ValidPolicy(p) && WriteAll(p, calls, crc).failed.None? && 1 <= stream <= 2 && m <= |data|
    requires var before := Fill(Seen(WriteAll(p, calls, crc), stream, |data|), stream, data[..m], crc); before.failed.None?
    requires ValidChunk(chunk, p) && k <= HEADER + |chunk.payload|
    ensures var before := Fill(Seen(WriteAll(p, calls, crc), stream, |data|), stream, data[..m], crc);
      Accepted(ShortWrite(before, chunk, k, crc), crc, complete, reason, requested, observed) <==> k == 0 && (observed ==> requested)
  {
    hide WriteAll, Fill, Encode, Stream, Sent, Tally, Framed, Accepted;
    var c := WriteAll(p, calls, crc);
    var chunks := WriteAllOk(p, calls, crc);
    var counted := Seen(c, stream, |data|);
    SeenFramed(c, chunks, WriteCall(stream, data), crc);
    var next, kept := FillFramed(counted, chunks, stream, data[..m], crc);
    var stdout := |Sent(calls, 1)| + if stream == 1 then |data| else 0;
    var stderr := |Sent(calls, 2)| + if stream == 2 then |data| else 0;
    ShortWriteAccepted(Fill(counted, stream, data[..m], crc), next, stdout, stderr, chunk, k, crc, complete, reason, requested, observed);
  }

  // ----- the budget of a run ---------------------------------------------------------------------------------

  datatype LogRun = LogRun(policy: Policy, reserved: nat, captures: seq<Capture>)

  /** `reserveLogs`: the policy is fixed by the first operation. */
  function ReserveLogs(run: Option<LogRun>, p: Policy, legacy: nat): Result<LogRun> {
    if legacy != 0 then Failure(ErrReconciliation)
    else
      var row := if run.Some? then run.value else LogRun(p, 0, []);
      if row.policy != p then Failure(ErrConflict)
      else if |row.captures| >= p.maxOperations || row.reserved > p.runBytes - p.operationBytes then Failure(ErrCapacity)
      else Success(LogRun(p, row.reserved + p.operationBytes, row.captures + [NewCapture(p)]))
  }

  datatype LogStep = Reserve(policy: Policy, legacy: nat) | WriteLog(operation: nat, stream: byte, data: seq<byte>)

  function DoLog(run: Option<LogRun>, step: LogStep, crc: Checksum): Option<LogRun> {
    match step
    case Reserve(p, legacy) =>
      var r := ReserveLogs(run, p, legacy);
      if r.Success? then Some(r.value) else run
    case WriteLog(i, stream, data) =>
      if run.None? || i >= |run.value.captures| || run.value.captures[i].policy.entryBytes <= HEADER then run
      else Some(run.value.(captures := run.value.captures[i := Write(run.value.captures[i], stream, data, crc).0]))
  }

  function ExecLog(steps: seq<LogStep>, crc: Checksum): Option<LogRun> {
    if steps == [] then None else DoLog(ExecLog(steps[..|steps| - 1], crc), steps[|steps| - 1], crc)
  }

  function SpoolBytes(captures: seq<Capture>): nat {
    if captures == [] then 0 else SpoolBytes(captures[..|captures| - 1]) + |captures[|captures| - 1].file|
  }

  ghost predicate Fits(c: Capture, p: Policy) { c.policy == p && |c.file| == c.retainedBytes <= p.operationBytes }

  ghost predicate RunOk(run: Option<LogRun>) {
    run.Some? ==>
      var p := run.value.policy;
      && run.value.reserved == |run.value.captures| * p.operationBytes && run.value.reserved <= p.runBytes
      && |run.value.captures| <= p.maxOperations
      && forall i :: 0 <= i < |run.value.captures| ==> Fits(run.value.captures[i], p)
  }

  lemma {:induction false} FillFits(c: Capture, stream: byte, data: seq<byte>, crc: Checksum, p: Policy)
    requires HEADER < c.policy.entryBytes && Fits(c, p)
    ensures Fits(Fill(c, stream, data, crc), p)
    decreases |data|
  {
    var available := c.policy.operationBytes - c.retainedBytes - HEADER;
    if data != [] && available > 0 {
      var n := Min(Min(|data|, c.policy.entryBytes - HEADER), available);
      FillFits(Put(c, Chunk(stream, data[..n]), crc), stream, data[n..], crc, p);
    }
  }

  lemma WriteFits(c: Capture, stream: byte, data: seq<byte>, crc: Checksum, p: Policy)
    requires HEADER < c.policy.entryBytes && Fits(c, p)
    ensures Fits(Write(c, stream, data, crc).0, p)
  {
    hide Fill;
    if !c.finished && (stream == 1 || stream == 2) && c.failed.None? {
      FillFits(Seen(c, stream, |data|), stream, data, crc, p);
    }
  }

  lemma OneMore(n: nat, size: nat)
    ensures (n + 1) * size == n * size + size
  {}

  lemma DoLogOk(run: Option<LogRun>, step: LogStep, crc: Checksum)
    requires RunOk(run)
    ensures RunOk(DoLog(run, step, crc))
  {
    hide Write, Fits;
    match step
    case Reserve(p, legacy) =>
      if run.Some? {
        OneMore(|run.value.captures|, p.operationBytes);
      }
      NewFits(p);
    case WriteLog(i, stream, data) =>
      if run.Some? && i < |run.value.captures| && run.value.captures[i].policy.entryBytes > HEADER {
        WriteFits(run.value.captures[i], stream, data, crc, run.value.policy);
      }
  }

  lemma NewFits(p: Policy)
    ensures Fits(NewCapture(p), p)
  {}

  lemma {:induction false} ExecLogOk(steps: seq<LogStep>, crc: Checksum)
    ensures RunOk(ExecLog(steps, crc))
  {
    hide RunOk, DoLog;
    if steps == [] {
      NoRunOk();
    } else {
      ExecLogOk(steps[..|steps| - 1], crc);
      DoLogOk(ExecLog(steps[..|steps| - 1], crc), steps[|steps| - 1], crc);
    }
  }

  lemma NoRunOk()
    ensures RunOk(None)
  {}

  lemma {:induction false} SumFits(captures: seq<Capture>, p: Policy)
    requires forall i :: 0 <= i < |captures| ==> Fits(captures[i], p)
    ensures SpoolBytes(captures) <= |captures| * p.operationBytes
  {
    if captures != [] {
      SumFits(captures[..|captures| - 1], p);
      OneMore(|captures| - 1, p.operationBytes);
    }
  }

  /** However operations and writes interleave, all spools of a run together never
      exceed its byte budget. */
  lemma RunBytesHold(steps: seq<LogStep>, crc: Checksum)
    requires ExecLog(steps, crc).Some?
    ensures var run := ExecLog(steps, crc).value;
      SpoolBytes(run.captures) <= run.reserved <= run.policy.runBytes && |run.captures| <= run.policy.maxOperations
  {
    hide ExecLog, SpoolBytes, Fits;
    ExecLogOk(steps, crc);
    SumFits(ExecLog(steps, crc).value.captures, ExecLog(steps, crc).value.policy);
  }
}
