/** Capturing a process's output into its spool and reading it back
    (internal/runner/log_capture.go), under the run's cumulative byte budget
    (internal/runner/log_journal.go). */
module LogCapture {
  import opened Domain
  import opened LogSpool

  function Min(a: int, b: int): int { if a < b then a else b }

  /** `saturatingAdd` and `saturatedTotal` on uint64. */
  function SatAdd(a: nat, b: nat): nat { if b > MAX_UINT64 - a then MAX_UINT64 else a + b }

  // ----- what a list of frames amounts to ---------------------------------------------------------

  datatype Totals = Totals(stdout: nat, stderr: nat, records: nat, payload: nat, bytes: nat, preview: seq<byte>)

  function Count(t: Totals, c: Chunk, previewBytes: nat): Totals {
    Totals(if c.stream == 1 then SatAdd(t.stdout, |c.payload|) else t.stdout,
           if c.stream == 1 then t.stderr else SatAdd(t.stderr, |c.payload|),
           t.records + 1, t.payload + |c.payload|, t.bytes + HEADER + |c.payload|,
           if |t.preview| < previewBytes then t.preview + c.payload[..Min(|c.payload|, previewBytes - |t.preview|)] else t.preview)
  }

  function Tally(chunks: seq<Chunk>, previewBytes: nat): Totals {
    if chunks == [] then Totals(0, 0, 0, 0, 0, [])
    else Count(Tally(chunks[..|chunks| - 1], previewBytes), chunks[|chunks| - 1], previewBytes)
  }

  lemma TallyAppend(chunks: seq<Chunk>, c: Chunk, previewBytes: nat)
    ensures Tally(chunks + [c], previewBytes) == Count(Tally(chunks, previewBytes), c, previewBytes)
  {
    assert (chunks + [c])[..|chunks|] == chunks;
  }

  /** The bytes of one stream. */
  function Stream(chunks: seq<Chunk>, stream: byte): seq<byte> {
    if chunks == [] then []
    else Stream(chunks[..|chunks| - 1], stream) + (if chunks[|chunks| - 1].stream == stream then chunks[|chunks| - 1].payload else [])
  }

  lemma StreamAppend(chunks: seq<Chunk>, c: Chunk, stream: byte)
    ensures Stream(chunks + [c], stream) == Stream(chunks, stream) + if c.stream == stream then c.payload else []
  {
    assert (chunks + [c])[..|chunks|] == chunks;
  }

  lemma {:induction false} EncodeAppend(chunks: seq<Chunk>, c: Chunk, index: nat, crc: Checksum)
    ensures Encode(chunks + [c], index, crc) == Encode(chunks, index, crc) + Frame(c, index + |chunks|, crc)
  {
    hide Frame;
    if chunks != [] {
      assert (chunks + [c])[1..] == chunks[1..] + [c];
      EncodeAppend(chunks[1..], c, index + 1, crc);
    } else {
      assert (chunks + [c])[1..] == [];
    }
  }

  // ----- writing ------------------------------------------------------------------------------------

  datatype Capture = Capture(
    policy: Policy, file: seq<byte>, stdoutSeen: nat, stderrSeen: nat, retainedBytes: nat, retainedPayload: nat, records: nat,
    preview: seq<byte>, truncated: bool, reason: string, failed: Option<Error>, finished: bool)

  function NewCapture(p: Policy): Capture { Capture(p, [], 0, 0, 0, 0, 0, [], false, "", None, false) }

  function Put(c: Capture, chunk: Chunk, crc: Checksum): Capture {
    c.(file := c.file + Frame(chunk, c.records, crc), retainedBytes := c.retainedBytes + HEADER + |chunk.payload|,
       retainedPayload := c.retainedPayload + |chunk.payload|, records := c.records + 1,
       preview := if |c.preview| < c.policy.previewBytes
                  then c.preview + chunk.payload[..Min(|chunk.payload|, c.policy.previewBytes - |c.preview|)] else c.preview)
  }

  function LimitReached(c: Capture): Capture { c.(failed := Some(ErrLogLimit), truncated := true, reason := "output_limit") }

  function Fill(c: Capture, stream: byte, data: seq<byte>, crc: Checksum): Capture
    requires HEADER < c.policy.entryBytes
    decreases |data|
  {
    if data == [] then c
    else
      var available := c.policy.operationBytes - c.retainedBytes - HEADER;
      if available <= 0 then LimitReached(c)
      else
        var n := Min(Min(|data|, c.policy.entryBytes - HEADER), available);
        Fill(Put(c, Chunk(stream, data[..n]), crc), stream, data[n..], crc)
  }

  function Seen(c: Capture, stream: byte, n: nat): Capture {
    if stream == 1 then c.(stdoutSeen := SatAdd(c.stdoutSeen, n)) else c.(stderrSeen := SatAdd(c.stderrSeen, n))
  }

  function Write(c: Capture, stream: byte, data: seq<byte>, crc: Checksum): (Capture, Result<()>)
    requires HEADER < c.policy.entryBytes
  {
    if c.finished then (c, Failure(ErrClosed))
    else if stream != 1 && stream != 2 then (c, Failure(ErrInvalid))
    else
      var counted := Seen(c, stream, |data|);
      if counted.failed.Some? then (counted, Failure(counted.failed.value))
      else
        var v := Fill(counted, stream, data, crc);
        (v, if v.failed.Some? then Failure(v.failed.value) else Success(()))
  }

  class LogWriter {
    const crc: Checksum
    const policy: Policy
    var file: seq<byte>
    var stdoutSeen: nat
    var stderrSeen: nat
    var retainedBytes: nat
    var retainedPayload: nat
    var records: nat
    var preview: seq<byte>
    var truncated: bool
    var reason: string
    var failed: Option<Error>
    var finished: bool

    function State(): Capture reads this {
      Capture(policy, file, stdoutSeen, stderrSeen, retainedBytes, retainedPayload, records, preview, truncated, reason, failed, finished)
    }

    constructor (policy: Policy, crc: Checksum)
      ensures State() == NewCapture(policy) && this.crc == crc
    {
      this.crc, this.policy := crc, policy;
      file, stdoutSeen, stderrSeen, retainedBytes, retainedPayload, records := [], 0, 0, 0, 0, 0;
      preview, truncated, reason, failed, finished := [], false, "", None, false;
    }

    method DoWrite(stream: byte, data: seq<byte>) returns (result: Result<()>)
      requires HEADER < policy.entryBytes
      modifies this
      ensures (State(), result) == Write(old(State()), stream, data, crc)
    {
      if finished {
        return Failure(ErrClosed);
      }
      if stream == 1 {
        stdoutSeen := SatAdd(stdoutSeen, |data|);
      } else if stream == 2 {
        stderrSeen := SatAdd(stderrSeen, |data|);
      } else {
        return Failure(ErrInvalid);
      }
      if failed.Some? {
        return Failure(failed.value);
      }
      FillLoop(stream, data);
      return if failed.Some? then Failure(failed.value) else Success(());
    }

    method FillLoop(stream: byte, data: seq<byte>)
      requires HEADER < policy.entryBytes
      modifies this
      ensures State() == Fill(old(State()), stream, data, crc)
    {
      hide Fill, Put, LimitReached, Frame;
      ghost var goal := Fill(State(), stream, data, crc);
      var rest := data;
      while rest != []
        invariant Fill(State(), stream, rest, crc) == goal
        decreases |rest|
      {
        var available := policy.operationBytes - retainedBytes - HEADER;
        FillStep(State(), stream, rest, crc);
        if available <= 0 {
          Limit();
          return;
        }
        var n := Min(Min(|rest|, policy.entryBytes - HEADER), available);
        Append(Chunk(stream, rest[..n]));
        rest := rest[n..];
      }
      FillStep(State(), stream, rest, crc);
    }

    method Limit()
      modifies this
      ensures State() == LimitReached(old(State()))
    {
      failed, truncated, reason := Some(ErrLogLimit), true, "output_limit";
    }

    /** One frame reaches the file and the counters. */
    method Append(chunk: Chunk)
      modifies this
      ensures State() == Put(old(State()), chunk, crc)
    {
      file := file + Frame(chunk, records, crc);
      retainedBytes := retainedBytes + HEADER + |chunk.payload|;
      retainedPayload := retainedPayload + |chunk.payload|;
      records := records + 1;
      var left := policy.previewBytes - |preview|;
      if left > 0 {
        preview := preview + chunk.payload[..Min(|chunk.payload|, left)];
      }
    }
  }

  lemma FillStep(c: Capture, stream: byte, data: seq<byte>, crc: Checksum)
    requires HEADER < c.policy.entryBytes
    ensures var available := c.policy.operationBytes - c.retainedBytes - HEADER;
      var n := Min(Min(|data|, c.policy.entryBytes - HEADER), available);
      Fill(c, stream, data, crc) ==
        if data == [] then c else if available <= 0 then LimitReached(c)
        else Fill(Put(c, Chunk(stream, data[..n]), crc), stream, data[n..], crc)
  {
    hide Put, Frame;
  }

  /** What the capture knows, against what the process really wrote. */
  ghost predicate CaptureOk(c: Capture, chunks: seq<Chunk>, stdout: seq<byte>, stderr: seq<byte>, crc: Checksum) {
    && Framed(c, chunks, crc) && SeenOk(c, |stdout|, |stderr|)
    && Stream(chunks, 1) <= stdout && Stream(chunks, 2) <= stderr
    && (if c.failed.None? then !c.truncated && c.reason == "" && Stream(chunks, 1) == stdout && Stream(chunks, 2) == stderr
        else c.truncated && c.reason == "output_limit")
  }

  ghost predicate SeenOk(c: Capture, stdout: nat, stderr: nat) {
    c.stdoutSeen == Min(stdout, MAX_UINT64) && c.stderrSeen == Min(stderr, MAX_UINT64)
  }

  ghost predicate Matches(c: Capture, t: Totals) {
    c.records == t.records && c.retainedPayload == t.payload && c.retainedBytes == t.bytes && c.preview == t.preview
  }

  /** The file is exactly the frames, within the operation's budget. */
  ghost predicate Framed(c: Capture, chunks: seq<Chunk>, crc: Checksum) {
    && c.file == Encode(chunks, 0, crc) && (forall i :: 0 <= i < |chunks| ==> ValidChunk(chunks[i], c.policy))
    && |c.file| == c.retainedBytes <= c.policy.operationBytes
    && c.records == |chunks| && Matches(c, Tally(chunks, c.policy.previewBytes))
  }

  lemma PutFramed(c: Capture, chunks: seq<Chunk>, chunk: Chunk, crc: Checksum)
    requires Framed(c, chunks, crc) && ValidChunk(chunk, c.policy) && c.retainedBytes + HEADER + |chunk.payload| <= c.policy.operationBytes
    ensures Framed(Put(c, chunk, crc), chunks + [chunk], crc)
  {
    hide Encode, Tally, Frame;
    EncodeAppend(chunks, chunk, 0, crc);
    TallyAppend(chunks, chunk, c.policy.previewBytes);
  }

  /** What `Fill` leaves: every byte framed, or the limit reached. */
  lemma {:induction false} FillFramed(c: Capture, chunks: seq<Chunk>, stream: byte, data: seq<byte>, crc: Checksum) returns (next: seq<Chunk>, kept: nat)
    requires HEADER < c.policy.entryBytes && Framed(c, chunks, crc) && 1 <= stream <= 2 && c.failed.None?
    ensures Framed(Fill(c, stream, data, crc), next, crc)
    ensures var v := Fill(c, stream, data, crc);
      && v == c.(file := v.file, retainedBytes := v.retainedBytes, retainedPayload := v.retainedPayload, records := v.records, preview := v.preview,
                 failed := v.failed, truncated := v.truncated, reason := v.reason)
      && (if v.failed.None? then kept == |data| && v.truncated == c.truncated && v.reason == c.reason else v.truncated && v.reason == "output_limit")
    ensures kept <= |data|
    ensures Stream(next, stream) == Stream(chunks, stream) + data[..kept] && Stream(next, 3 - stream) == Stream(chunks, 3 - stream)
    decreases |data|
  {
    hide Framed, Stream, Put, Fill;
    var available := c.policy.operationBytes - c.retainedBytes - HEADER;
    FillStep(c, stream, data, crc);
    if data == [] || available <= 0 {
      next, kept := chunks, 0;
      LimitFramed(c, chunks, crc);
    } else {
      var n := Min(Min(|data|, c.policy.entryBytes - HEADER), available);
      var chunk := Chunk(stream, data[..n]);
      PutFramed(c, chunks, chunk, crc);
      PutFrame(c, chunk, crc);
      StreamAppend(chunks, chunk, stream);
      StreamAppend(chunks, chunk, 3 - stream);
      var more;
      next, more := FillFramed(Put(c, chunk, crc), chunks + [chunk], stream, data[n..], crc);
      kept := n + more;
      Prefixes(data, n, more);
      assert Stream(chunks, stream) + data[..n] + data[n..][..more] == Stream(chunks, stream) + data[..kept];
    }
  }

  lemma Prefixes(data: seq<byte>, n: nat, more: nat)
    requires n + more <= |data|
    ensures data[..n] + data[n..][..more] == data[..n + more]
  {}

  lemma LimitFramed(c: Capture, chunks: seq<Chunk>, crc: Checksum)
    requires Framed(c, chunks, crc)
    ensures Framed(LimitReached(c), chunks, crc)
  {
    hide Encode, Tally;
  }

  lemma PutFrame(c: Capture, chunk: Chunk, crc: Checksum)
    ensures var v := Put(c, chunk, crc);
      v == c.(file := v.file, retainedBytes := v.retainedBytes, retainedPayload := v.retainedPayload, records := v.records, preview := v.preview)
  {}

  // ----- how a write is framed ---------------------------------------------------------------------------

  /** Frames that hold `k` bytes with at most `most` of them each. */
  ghost function FrameCount(k: nat, most: nat): nat
    requires most > 0
    decreases k
  {
    if k == 0 then 0 else if k <= most then 1 else 1 + FrameCount(k - most, most)
  }

  /** The least spool space any framing of `k` bytes takes. */
  ghost function SpoolCost(k: nat, most: nat): nat
    requires most > 0
  {
    k + HEADER * FrameCount(k, most)
  }

  lemma {:induction false} FewestFrames(frames: seq<Chunk>, most: nat)
    requires most > 0 && forall j :: 0 <= j < |frames| ==> |frames[j].payload| <= most
    ensures FrameCount(|Joint(frames)|, most) <= |frames|
  {
    if frames != [] {
      var rest := frames[1..];
      FewestFrames(rest, most);
      MoreFrames(|frames[0].payload|, |Joint(rest)|, most);
    }
  }

  lemma {:induction false} MoreFrames(a: nat, b: nat, most: nat)
    requires most > 0 && a <= most
    ensures FrameCount(a + b, most) <= 1 + FrameCount(b, most)
    decreases b
  {
    if a + b > most && b > most {
      MoreFrames(a, b - most, most);
    }
  }

  /** All payload bytes in the order they were written, of both streams. */
  ghost function Joint(frames: seq<Chunk>): seq<byte> {
    if frames == [] then [] else frames[0].payload + Joint(frames[1..])
  }

  /** `frames` hold the first `kept` bytes of `data`, each frame full but the last. */
  ghost predicate Packed(frames: seq<Chunk>, kept: nat, stream: byte, data: seq<byte>, most: nat)
    requires most > 0
  {
    && kept <= |data| && Joint(frames) == data[..kept] && (forall j :: 0 <= j < |frames| ==> frames[j].stream == stream)
    && (forall j :: 0 <= j < |frames| - 1 ==> |frames[j].payload| == most) && |frames| == FrameCount(kept, most)
  }

  /** They went to the spool, and not one byte more would have fitted. */
  ghost predicate Spooled(c: Capture, v: Capture, frames: seq<Chunk>, kept: nat, size: nat, crc: Checksum)
    requires HEADER < c.policy.entryBytes
  {
    var most := c.policy.entryBytes - HEADER;
    && v.file == c.file + Encode(frames, c.records, crc) && v.retainedBytes == c.retainedBytes + SpoolCost(kept, most) <= c.policy.operationBytes
    && v.retainedPayload == c.retainedPayload + kept && v.failed == (if kept == size then None else Some(ErrLogLimit))
    && (kept < size ==> c.retainedBytes + SpoolCost(kept + 1, most) > c.policy.operationBytes)
  }

  /** A write frames the longest prefix of its data that any framing could fit into the
      budget, in frames that are full but for the last; it fails exactly when that is not
      all of it. */
  lemma {:induction false} FillKeepsMost(c: Capture, stream: byte, data: seq<byte>, crc: Checksum) returns (frames: seq<Chunk>, kept: nat)
    requires HEADER < c.policy.entryBytes && c.failed.None? && c.retainedBytes <= c.policy.operationBytes
    ensures kept <= |data| && Packed(frames, kept, stream, data, c.policy.entryBytes - HEADER)
    ensures Spooled(c, Fill(c, stream, data, crc), frames, kept, |data|, crc)
    decreases |data|
  {
    hide Fill, Frame, Packed, Spooled;
    var most := c.policy.entryBytes - HEADER;
    var available := c.policy.operationBytes - c.retainedBytes - HEADER;
    FillStep(c, stream, data, crc);
    if data == [] || available <= 0 {
      frames, kept := [], 0;
      NothingKept(c, stream, data, crc);
    } else {
      var n := Min(Min(|data|, most), available);
      var chunk := Chunk(stream, data[..n]);
      var more, rest;
      more, rest := FillKeepsMost(Put(c, chunk, crc), stream, data[n..], crc);
      frames, kept := [chunk] + more, n + rest;
      SpooledMore(c, chunk, Fill(Put(c, chunk, crc), stream, data[n..], crc), more, rest, |data|, crc);
      PackedMore(chunk, more, rest, data, most);
    }
  }

  /** No framing of the same data, however cut, gets more of it into the budget. */
  lemma NoFramingKeepsMore(c: Capture, stream: byte, data: seq<byte>, crc: Checksum, other: seq<Chunk>)
    requires HEADER < c.policy.entryBytes && c.failed.None? && c.retainedBytes <= c.policy.operationBytes
    requires Joint(other) <= data && forall j :: 0 <= j < |other| ==> |other[j].payload| <= c.policy.entryBytes - HEADER
    requires c.retainedBytes + |Joint(other)| + HEADER * |other| <= c.policy.operationBytes
    ensures |Joint(other)| <= Fill(c, stream, data, crc).retainedPayload - c.retainedPayload
  {
    hide Fill, Encode, Joint, FrameCount;
    var most := c.policy.entryBytes - HEADER;
    var frames, kept := FillKeepsMost(c, stream, data, crc);
    FewestFrames(other, most);
    if kept < |Joint(other)| {
      CountMonotone(kept + 1, |Joint(other)|, most);
    }
  }

  lemma {:induction false} CountMonotone(a: nat, b: nat, most: nat)
    requires most > 0 && a <= b
    ensures FrameCount(a, most) <= FrameCount(b, most)
    decreases b
  {
    if a > most {
      CountMonotone(a - most, b - most, most);
    }
  }

  lemma NothingKept(c: Capture, stream: byte, data: seq<byte>, crc: Checksum)
    requires HEADER < c.policy.entryBytes && c.failed.None? && c.retainedBytes <= c.policy.operationBytes
    requires data == [] || c.policy.operationBytes - c.retainedBytes - HEADER <= 0
    ensures Packed([], 0, stream, data, c.policy.entryBytes - HEADER)
    ensures Spooled(c, if data == [] then c else LimitReached(c), [], 0, |data|, crc)
  {
    NoFrames(c.records, crc);
    assert c.file + [] == c.file;
  }

  lemma PackedMore(chunk: Chunk, more: seq<Chunk>, rest: nat, data: seq<byte>, most: nat)
    requires 0 < |chunk.payload| <= most && |chunk.payload| <= |data| && chunk.payload == data[..|chunk.payload|]
    requires Packed(more, rest, chunk.stream, data[|chunk.payload|..], most) && (|chunk.payload| < most ==> rest == 0)
    ensures Packed([chunk] + more, |chunk.payload| + rest, chunk.stream, data, most)
  {
    var n := |chunk.payload|;
    JointOf(chunk, more);
    FrameStep(n, rest, most);
    assert data[..n] + data[n..][..rest] == data[..n + rest];
    hide Joint;
  }

  lemma SpooledMore(c: Capture, chunk: Chunk, v: Capture, more: seq<Chunk>, rest: nat, size: nat, crc: Checksum)
    requires HEADER < c.policy.entryBytes
    requires var n, most, available := |chunk.payload|, c.policy.entryBytes - HEADER, c.policy.operationBytes - c.retainedBytes - HEADER;
      0 < n == Min(Min(size, most), available)
    requires rest <= size - |chunk.payload| && Spooled(Put(c, chunk, crc), v, more, rest, size - |chunk.payload|, crc)
    ensures Spooled(c, v, [chunk] + more, |chunk.payload| + rest, size, crc)
    ensures |chunk.payload| < c.policy.entryBytes - HEADER ==> rest == 0
  {
    hide Frame, Encode, FrameCount;
    var most := c.policy.entryBytes - HEADER;
    var u, n := Put(c, chunk, crc), |chunk.payload|;
    assert u.file == c.file + Frame(chunk, c.records, crc) && u.retainedBytes == c.retainedBytes + HEADER + n && u.records == c.records + 1;
    hide Put;
    FirstFrame(chunk, more, c.records, crc);
    FrameStep(n, rest, most);
  }

  lemma NoFrames(index: nat, crc: Checksum)
    ensures Encode([], index, crc) == []
  {}

  lemma FirstFrame(chunk: Chunk, more: seq<Chunk>, index: nat, crc: Checksum)
    ensures Encode([chunk] + more, index, crc) == Frame(chunk, index, crc) + Encode(more, index + 1, crc)
  {
    assert ([chunk] + more)[1..] == more;
  }

  lemma JointOf(chunk: Chunk, more: seq<Chunk>)
    ensures Joint([chunk] + more) == chunk.payload + Joint(more)
  {
    assert ([chunk] + more)[1..] == more;
  }

  lemma FrameStep(n: nat, rest: nat, most: nat)
    requires 0 < n <= most && (n < most ==> rest == 0)
    ensures FrameCount(n + rest, most) == 1 + FrameCount(rest, most)
    ensures n == most ==> FrameCount(n + rest + 1, most) == 1 + FrameCount(rest + 1, most)
    ensures n < most ==> FrameCount(n + 1, most) == 1 && FrameCount(rest, most) == 0
  {}

  /** The preview is the beginning of everything framed, in the order it was written. */
  lemma {:induction false} PreviewIs(chunks: seq<Chunk>, previewBytes: nat)
    ensures Tally(chunks, previewBytes).preview == Joint(chunks)[..Min(|Joint(chunks)|, previewBytes)]
  {
    if chunks != [] {
      var n := |chunks| - 1;
      PreviewIs(chunks[..n], previewBytes);
      JointAppend(chunks[..n], chunks[n]);
      assert chunks[..n] + [chunks[n]] == chunks;
      hide Joint;
    }
  }

  lemma {:induction false} JointAppend(chunks: seq<Chunk>, c: Chunk)
    ensures Joint(chunks + [c]) == Joint(chunks) + c.payload
  {
    if chunks == [] {
      assert [c][1..] == [] && chunks + [c] == [c];
    } else {
      assert (chunks + [c])[1..] == chunks[1..] + [c];
      JointAppend(chunks[1..], c);
    }
  }
}
