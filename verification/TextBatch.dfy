/** Batching streamed model text into bounded events
    (internal/application/text_batch.go). */
module TextBatch {
  import opened Domain
  import opened Utf8
  import opened JsonText

  const PAYLOAD_LIMIT: nat := 32 * 1024

  /** Everything of the event's JSON except the attempt and the delta. */
  const ENVELOPE := "{\"attempt_id\":\"\",\"provisional\":true,\"delta\":\"\"}"

  /** Attempt identifiers contain nothing that needs escaping. */
  function BodySize(id: string, text: seq<byte>): nat
    requires Valid(text)
  {
    |ENVELOPE| + |id| + |Escape(text)|
  }

  /** The prefix of `k` bytes ends between characters and its event fits the ceiling. */
  ghost predicate FitsAt(id: string, text: seq<byte>, k: nat) {
    k <= |text| && Boundary(text, k) && Valid(text[..k]) && BodySize(id, text[..k]) <= PAYLOAD_LIMIT
  }

  ghost predicate IsLargest(id: string, text: seq<byte>, n: nat) {
    FitsAt(id, text, n) && forall k :: n < k <= |text| ==> !FitsAt(id, text, k)
  }

  /** A longer prefix never encodes to fewer bytes. */
  lemma SizeMonotone(id: string, text: seq<byte>, j: nat, k: nat)
    requires Valid(text) && Boundary(text, j) && Boundary(text, k) && j <= k
    ensures k <= |text| && Valid(text[..j]) && Valid(text[..k]) && BodySize(id, text[..j]) <= BodySize(id, text[..k])
  {
    hide Escape, Valid, Boundary;
    ValidSplit(text, j);
    ValidSplit(text, k);
    BoundarySplit(text, j, k);
    ValidSplit(text[j..], k - j);
    assert text[..k] == text[..j] + text[j..][..k - j];
    EscapeConcat(text[..j], text[j..][..k - j]);
  }

  /** All positions between characters, in order. */
  ghost predicate AllEnds(text: seq<byte>, ends: seq<nat>, upTo: nat) {
    && |ends| > 0 && ends[0] == 0 && ends[|ends| - 1] == upTo && upTo <= |text|
    && (forall i :: 0 <= i < |ends| ==> Boundary(text, ends[i]))
    && (forall i, j :: 0 <= i < j < |ends| ==> ends[i] < ends[j])
    && (forall k :: 0 <= k <= upTo && Boundary(text, k) ==> k in ends)
  }

  lemma NextEnd(text: seq<byte>, at: nat)
    requires Valid(text) && Boundary(text, at) && at < |text|
    ensures First(text[at..]) > 0 && at + First(text[at..]) <= |text| && Boundary(text, at + First(text[at..]))
    ensures forall k :: at < k < at + First(text[at..]) ==> !Boundary(text, k)
  {
    hide First;
    ValidSplit(text, at);
    var n := First(text[at..]);
    forall k | at < k <= at + n ensures Boundary(text, k) <==> k == at + n {
      BoundarySplit(text, at, k);
    }
  }

  method RuneEnds(text: seq<byte>) returns (ends: seq<nat>)
    requires Valid(text)
    ensures AllEnds(text, ends, |text|)
  {
    ends := [0];
    var at := 0;
    while at < |text|
      invariant 0 <= at <= |text| && AllEnds(text, ends, at)
      decreases |text| - at
    {
      hide Valid, First, Boundary;
      NextEnd(text, at);
      var n := First(text[at..]);
      EndsGrow(text, ends, at, at + n);
      at := at + n;
      ends := ends + [at];
    }
  }

  lemma EndsGrow(text: seq<byte>, ends: seq<nat>, at: nat, next: nat)
    requires AllEnds(text, ends, at) && at < next <= |text| && Boundary(text, next)
    requires forall k :: at < k < next ==> !Boundary(text, k)
    ensures AllEnds(text, ends + [next], next)
  {
    hide Boundary;
    var more := ends + [next];
    forall k | 0 <= k <= next && Boundary(text, k) ensures k in more {
      if k <= at {
        assert k in ends;
      } else {
        assert more[|ends|] == next;
      }
    }
    assert forall i :: 0 <= i < |ends| ==> ends[i] <= at;
  }

  /** The largest prefix whose event fits, found by binary search over characters. */
  method TextPayloadPrefix(id: string, text: seq<byte>) returns (result: Result<nat>)
    requires Valid(text)
    ensures result.Success? ==> IsLargest(id, text, result.value) && (text != [] ==> result.value > 0)
    ensures result.Failure? ==> result.error == ErrCapacity && forall k: nat :: k > 0 || text == [] ==> !FitsAt(id, text, k)
  {
    hide Escape, Valid, Boundary, BodySize;
    EndIsBoundary(text);
    assert text[..|text|] == text;
    if BodySize(id, text) <= PAYLOAD_LIMIT {
      return Success(|text|);
    }
    var ends := RuneEnds(text);
    var low, high := 0, |ends| - 1;
    while low < high
      invariant 0 <= low <= high < |ends|
      invariant low > 0 ==> FitsAt(id, text, ends[low])
      invariant forall j :: high < j < |ends| ==> !FitsAt(id, text, ends[j])
      decreases high - low
    {
      var mid := (low + high + 1) / 2;
      ValidSplit(text, ends[mid]);
      if BodySize(id, text[..ends[mid]]) <= PAYLOAD_LIMIT {
        low := mid;
      } else {
        forall j | mid <= j < |ends| ensures !FitsAt(id, text, ends[j]) {
          SizeMonotone(id, text, ends[mid], ends[j]);
        }
        high := mid - 1;
      }
    }
    forall k | ends[low] < k <= |text| ensures !FitsAt(id, text, k) {
      if k in ends {
        var j :| 0 <= j < |ends| && ends[j] == k;
        assert j > low;
      }
    }
    if low == 0 {
      if text == [] {
        assert !FitsAt(id, text, 0);
      }
      return Failure(ErrCapacity);
    }
    return Success(ends[low]);
  }

  /** With a real attempt identifier the search never comes back empty-handed. */
  lemma FirstRuneFits(id: string, text: seq<byte>)
    requires Valid(text) && text != [] && |id| <= 128
    ensures FitsAt(id, text, First(text)) && First(text) > 0
  {
    var n := First(text);
    FirstOfFirst(text);
    var r := text[..n];
    hide First, EscapeRune;
    assert Boundary(text, n);
    assert r[n..] == [] && r[..n] == r;
    assert Valid(r) && Escape(r) == EscapeRune(r) + Escape([]);
    RuneCost(r);
    assert |ENVELOPE| == 47;
  }

  /** No character costs more than six bytes. */
  lemma RuneCost(r: seq<byte>)
    requires |r| <= 4
    ensures |EscapeRune(r)| <= 6
  {}

  // ----- configuration -----------------------------------------------------------------------------

  /** Interval in milliseconds; zero fields take their defaults. */
  datatype TextBatchConfig = TextBatchConfig(interval: int, maxBytes: int)

  function Normalize(c: TextBatchConfig): (r: Result<TextBatchConfig>)
    ensures r.Success? ==> 10 <= r.value.interval <= 1000 && 4 <= r.value.maxBytes <= 16 * 1024
    ensures r.Success? && c.interval != 0 && c.maxBytes != 0 ==> r.value == c
    ensures r.Failure? ==> r.error == ErrInvalid
    ensures r.Success? <==> (c.interval == 0 || 10 <= c.interval <= 1000) && (c.maxBytes == 0 || 4 <= c.maxBytes <= 16 * 1024)
  {
    var interval := if c.interval == 0 then 100 else c.interval;
    var maxBytes := if c.maxBytes == 0 then 16 * 1024 else c.maxBytes;
    if interval < 10 || interval > 1000 || maxBytes < 4 || maxBytes > 16 * 1024 then Failure(ErrInvalid)
    else Success(TextBatchConfig(interval, maxBytes))
  }

  // ----- the sink --------------------------------------------------------------------------------

  /** The cut `emit` makes: step back from `size` to the start of a character. */
  function Cut(text: seq<byte>, size: nat): (k: nat)
    requires size <= |text|
    ensures k <= size
  {
    if 0 < size < |text| && !RuneStart(text[size]) then Cut(text, size - 1) else size
  }

  lemma {:induction false} CutIsBoundary(text: seq<byte>, size: nat)
    requires Valid(text) && size <= |text|
    ensures Boundary(text, Cut(text, size))
  {
    hide Valid, Boundary;
    if size == |text| {
      EndIsBoundary(text);
    } else {
      BoundaryIff(text, size);
      if size > 0 && !RuneStart(text[size]) {
        CutIsBoundary(text, size - 1);
      } else if size == 0 {
        StartIsBoundary(text);
      }
    }
  }

  lemma StartIsBoundary(text: seq<byte>)
    ensures Boundary(text, 0)
  {}

  /** Four bytes always hold a whole character, so the loop of `emit` moves on. */
  lemma {:induction false} CutProgress(text: seq<byte>, size: nat)
    requires Valid(text) && text != [] && First(text) <= size <= |text|
    ensures Cut(text, size) > 0
    decreases size
  {
    if size < |text| && size == First(text) {
      BoundaryIff(text, size);
      assert Boundary(text, size);
    }
    if size < |text| && !RuneStart(text[size]) {
      CutProgress(text, size - 1);
    }
  }

  lemma {:induction false} NothingBeforeFirst(text: seq<byte>, k: nat)
    requires Boundary(text, k) && k < First(text)
    ensures k == 0
  {}

  /** The cut advances exactly when the room holds the first character. */
  lemma CutPositiveIff(text: seq<byte>, size: nat)
    requires Valid(text) && text != [] && size <= |text|
    ensures Cut(text, size) > 0 <==> First(text) <= size
  {
    if First(text) <= size {
      CutProgress(text, size);
    } else {
      CutIsBoundary(text, size);
      NothingBeforeFirst(text, Cut(text, size));
    }
  }

  function Room(text: seq<byte>, room: nat): nat { if room < |text| then room else |text| }

  /** An empty buffer of `room` bytes makes progress on every text exactly when it
      holds four bytes; configuration refuses anything smaller. */
  lemma RoomForAnyTextIff(room: nat)
    ensures (forall text: seq<byte> :: Valid(text) && text != [] ==> Cut(text, Room(text, room)) > 0) <==> 4 <= room
  {
    if 4 <= room {
      forall text: seq<byte> | Valid(text) && text != [] ensures Cut(text, Room(text, room)) > 0 {
        CutPositiveIff(text, Room(text, room));
      }
    } else {
      var face: seq<byte> := [0xF0, 0x9F, 0x98, 0x80];
      assert First(face) == 4 && face[4..] == [];
      assert Valid(face);
      CutPositiveIff(face, Room(face, room));
    }
  }

  function Concat(parts: seq<seq<byte>>): seq<byte> {
    if parts == [] then [] else Concat(parts[..|parts| - 1]) + parts[|parts| - 1]
  }

  lemma ConcatAppend(parts: seq<seq<byte>>, part: seq<byte>)
    ensures Concat(parts + [part]) == Concat(parts) + part
  {
    assert (parts + [part])[..|parts|] == parts;
  }

  predicate Deliverable(id: string, delta: seq<byte>) {
    delta != [] && Valid(delta) && BodySize(id, delta) <= PAYLOAD_LIMIT
  }

  /** `parts` split `text` greedily: each is the largest event that fits what is left. */
  ghost predicate Greedy(id: string, text: seq<byte>, parts: seq<seq<byte>>) {
    parts == [] || (
      var init, last := parts[..|parts| - 1], parts[|parts| - 1];
      Greedy(id, text, init) && |Concat(init)| <= |text| && IsLargest(id, text[|Concat(init)|..], |last|)
      && last == text[|Concat(init)|..][..|last|])
  }

  lemma GreedyStep(id: string, text: seq<byte>, parts: seq<seq<byte>>, pending: seq<byte>, n: nat)
    requires text == Concat(parts) + pending && Greedy(id, text, parts) && n <= |pending| && IsLargest(id, pending, n)
    ensures Greedy(id, text, parts + [pending[..n]]) && text == Concat(parts + [pending[..n]]) + pending[n..]
  {
    hide IsLargest;
    ConcatAppend(parts, pending[..n]);
    assert (parts + [pending[..n]])[..|parts|] == parts;
    assert text[|Concat(parts)|..] == pending;
    assert pending == pending[..n] + pending[n..];
  }

  lemma NoParts(id: string, text: seq<byte>)
    ensures Greedy(id, text, []) && Concat([]) == []
  {}

  /** One flush: what was pending and the events it became. */
  datatype FlushRecord = FlushRecord(batch: seq<byte>, parts: seq<seq<byte>>)

  ghost function AllParts(flushes: seq<FlushRecord>): seq<seq<byte>> {
    if flushes == [] then [] else AllParts(flushes[..|flushes| - 1]) + flushes[|flushes| - 1].parts
  }

  /** The events are the greedy splits of the flushed batches, in order; only the last
      flush can have stopped early. */
  ghost predicate Recorded(id: string, deltas: seq<seq<byte>>, flushes: seq<FlushRecord>, whole: bool) {
    && deltas == AllParts(flushes)
    && (forall i :: 0 <= i < |flushes| ==> Greedy(id, flushes[i].batch, flushes[i].parts))
    && (forall i :: 0 <= i < |flushes| && (whole || i < |flushes| - 1) ==> Concat(flushes[i].parts) == flushes[i].batch)
  }

  lemma RecordedStep(id: string, deltas: seq<seq<byte>>, flushes: seq<FlushRecord>, f: FlushRecord, whole: bool)
    requires Recorded(id, deltas, flushes, true) && Greedy(id, f.batch, f.parts) && (whole ==> Concat(f.parts) == f.batch)
    ensures Recorded(id, deltas + f.parts, flushes + [f], whole)
  {
    hide Greedy, Concat;
    assert (flushes + [f])[..|flushes|] == flushes;
  }

  class StreamSink {
    const attempt: string
    const maxBytes: nat
    /** Whether the nth append to the event log succeeds. */
    const accepts: nat -> bool
    var appends: nat
    var pending: seq<byte>
    var deltas: seq<seq<byte>>
    var err: Option<Error>
    var closed: bool
    ghost var flushes: seq<FlushRecord>

    ghost predicate Core()
      reads this
    {
      && Valid(pending) && |pending| <= maxBytes && (err.None? ==> 4 <= maxBytes)
      && (forall i :: 0 <= i < |deltas| ==> Deliverable(attempt, deltas[i]))
    }

    ghost predicate Ok()
      reads this
    {
      Core() && Recorded(attempt, deltas, flushes, err.None?)
    }

    /** Text taken so far: appended events, then what is still pending. */
    ghost function Text(): seq<byte>
      reads this
    {
      Concat(deltas) + pending
    }

    /** Nothing can go wrong: appends succeed and the identifier is a real one. */
    ghost predicate Reliable() { (forall n :: accepts(n)) && |attempt| <= 128 }

    constructor (attempt: string, config: TextBatchConfig, accepts: nat -> bool)
      ensures Ok() && Text() == [] && deltas == [] && !closed && this.accepts == accepts && this.attempt == attempt
      ensures var c := Normalize(config); if c.Success? then err.None? && maxBytes == c.value.maxBytes else err == Some(c.error)
    {
      var c := Normalize(config);
      this.attempt, this.accepts := attempt, accepts;
      maxBytes := if c.Success? then c.value.maxBytes else 0;
      appends, pending, deltas, closed, flushes := 0, [], [], false, [];
      err := if c.Success? then None else Some(c.error);
    }

    method Flush()
      requires Ok()
      modifies this
      ensures Ok() && closed == old(closed) && Text() == old(Text()) && |pending| <= |old(pending)|
      ensures old(err).Some? ==> err == old(err) && deltas == old(deltas) && pending == old(pending)
      ensures err.None? ==> pending == []
      ensures old(deltas) <= deltas && Greedy(attempt, old(pending), deltas[|old(deltas)|..])
      ensures flushes == if old(err).Some? || old(pending) == [] then old(flushes)
                         else old(flushes) + [FlushRecord(old(pending), deltas[|old(deltas)|..])]
      ensures Reliable() ==> err == old(err)
    {
      hide Greedy, Concat, Recorded, Valid, Deliverable;
      NoParts(attempt, pending);
      if err.None? && pending != [] {
        ghost var sent := Drain();
        assert deltas[|old(deltas)|..] == sent;
        RecordedStep(attempt, old(deltas), flushes, FlushRecord(old(pending), sent), err.None?);
        flushes := flushes + [FlushRecord(old(pending), sent)];
      } else {
        assert deltas[|deltas|..] == [];
      }
    }

    /** The loop of `flush`. */
    method Drain() returns (ghost sent: seq<seq<byte>>)
      requires Core() && err.None?
      modifies this
      ensures Core() && flushes == old(flushes) && closed == old(closed) && deltas == old(deltas) + sent && |pending| <= |old(pending)|
      ensures old(pending) == Concat(sent) + pending && Text() == old(Text()) && Greedy(attempt, old(pending), sent)
      ensures (err.None? ==> pending == []) && (Reliable() ==> err.None?)
    {
      hide Valid, Deliverable, IsLargest, FitsAt, BodySize, Greedy, Concat;
      sent := [];
      NoParts(attempt, pending);
      assert old(deltas) + [] == old(deltas);
      while err.None? && pending != []
        invariant Core() && flushes == old(flushes) && closed == old(closed) && deltas == old(deltas) + sent && |pending| <= |old(pending)|
        invariant old(pending) == Concat(sent) + pending && Text() == old(Text())
        invariant Greedy(attempt, old(pending), sent)
        invariant Reliable() ==> err.None?
        decreases |pending|, if err.None? then 1 else 0
      {
        var size := TextPayloadPrefix(attempt, pending);
        if size.Failure? {
          if |attempt| <= 128 {
            FirstRuneFits(attempt, pending);
          }
          err := Some(size.error);
        } else {
          appends := appends + 1;
          if !accepts(appends) {
            err := Some(ErrAppend);
          } else {
            IsLargestFits(attempt, pending, size.value);
            GreedyStep(attempt, old(pending), sent, pending, size.value);
            sent := sent + [pending[..size.value]];
            Deliver(size.value);
          }
        }
      }
    }

    /** The first `n` pending bytes become an event. */
    method Deliver(n: nat)
      requires Core() && 0 < n <= |pending| && IsLargest(attempt, pending, n)
      modifies this
      ensures Core() && flushes == old(flushes) && Text() == old(Text()) && deltas == old(deltas) + [old(pending)[..n]] && pending == old(pending)[n..]
      ensures err == old(err) && closed == old(closed) && appends == old(appends)
    {
      hide Valid, Deliverable, IsLargest, Concat;
      PrefixDeliverable(attempt, pending, n);
      ConcatAppend(deltas, pending[..n]);
      assert Concat(deltas) + pending == Concat(deltas) + pending[..n] + pending[n..];
      deltas := deltas + [pending[..n]];
      pending := pending[n..];
    }

    method Emit(delta: seq<byte>, isText: bool) returns (result: Option<Error>)
      requires Ok()
      modifies this
      ensures Ok() && closed == old(closed) && old(deltas) <= deltas
      ensures FullFlushes(old(flushes))
      ensures old(err).Some? ==> result == err == old(err) && Text() == old(Text())
      ensures old(err).None? && closed ==> result == Some(ErrClosed) && err.None? && Text() == old(Text())
      ensures old(err).None? && !closed && !isText ==> result.None? && err.None? && Text() == old(Text())
      ensures old(err).None? && !closed && isText && !Valid(delta) ==> result == err == Some(ErrInvalid) && Text() == old(Text())
      ensures old(err).None? && !closed && isText && Valid(delta) ==>
        && result == err && old(Text()) <= Text() <= old(Text()) + delta
        && (err.None? ==> Text() == old(Text()) + delta) && (Reliable() ==> err.None?)
    {
      if err.Some? {
        return err;
      }
      if closed {
        return Some(ErrClosed);
      }
      if !isText {
        return None;
      }
      if !Valid(delta) {
        err := Some(ErrInvalid);
        return err;
      }
      TakeAll(delta);
      return err;
    }

    /** The loop of `emit`.  It ends because an emptied buffer has room for a character. */
    method TakeAll(delta: seq<byte>)
      requires Ok() && err.None? && Valid(delta)
      modifies this
      ensures Ok() && closed == old(closed) && old(deltas) <= deltas
      ensures FullFlushes(old(flushes))
      ensures old(Text()) <= Text() <= old(Text()) + delta
      ensures err.None? ==> Text() == old(Text()) + delta
      ensures Reliable() ==> err.None?
    {
      hide Valid, Deliverable, Boundary, First, Concat, Cut, Greedy, Recorded;
      var rest := delta;
      while rest != [] && err.None?
        invariant Ok() && closed == old(closed) && old(deltas) <= deltas && FullFlushes(old(flushes))
        invariant Valid(rest) && Text() + rest == old(Text()) + delta && |old(Text())| <= |Text()|
        invariant Reliable() ==> err.None?
        decreases |rest|, |pending|, if err.None? then 1 else 0
      {
        var size := RoomFor(rest);
        if size == 0 {
          Flush();
        } else {
          ghost var before := Text();
          Take(rest[..size]);
          assert Text() + rest[size..] == before + rest by {
            assert rest == rest[..size] + rest[size..];
          }
          rest := rest[size..];
          if |pending| == maxBytes {
            Flush();
          }
        }
      }
      assert Text() == (old(Text()) + delta)[..|Text()|];
    }

    /** How much of `text` fits the buffer without splitting a character. */
    method RoomFor(text: seq<byte>) returns (size: nat)
      requires Ok() && err.None? && Valid(text) && text != []
      ensures size <= |text| && Valid(text[..size]) && Valid(text[size..]) && |pending| + size <= maxBytes
      ensures pending == [] ==> size > 0
      ensures size == 0 ==> |pending| + 4 > maxBytes
    {
      hide Valid, Boundary, Deliverable, Recorded;
      var room := if maxBytes - |pending| < |text| then maxBytes - |pending| else |text|;
      size := room;
      while 0 < size < |text| && !RuneStart(text[size])
        invariant 0 <= size <= room && Cut(text, size) == Cut(text, room)
        decreases size
      {
        size := size - 1;
      }
      CutIsBoundary(text, room);
      ValidSplit(text, size);
      ValidFirst(text);
      CutPositiveIff(text, room);
    }

    method Take(part: seq<byte>)
      requires Ok() && Valid(part) && |pending| + |part| <= maxBytes
      modifies this
      ensures Ok() && Text() == old(Text()) + part && pending == old(pending) + part
      ensures closed == old(closed) && deltas == old(deltas) && err == old(err) && flushes == old(flushes)
    {
      hide Valid, Deliverable, Concat, Boundary, Recorded;
      ValidConcat(pending, part);
      assert Concat(deltas) + (pending + part) == Concat(deltas) + pending + part;
      pending := pending + part;
    }

    /** Since `before`, only batches without room for another character were flushed. */
    ghost predicate FullFlushes(before: seq<FlushRecord>)
      reads this
    {
      before <= flushes && forall i :: |before| <= i < |flushes| ==> |flushes[i].batch| + 4 > maxBytes
    }

    lemma IsRecorded()
      requires Ok()
      ensures Recorded(attempt, deltas, flushes, err.None?)
    {}

    method Close() returns (result: Option<Error>)
      requires Ok()
      modifies this
      ensures Ok() && closed && result == err && Text() == old(Text()) && old(deltas) <= deltas
      ensures err.None? ==> Concat(deltas) == Text()
      ensures old(err).Some? || Reliable() ==> err == old(err)
    {
      closed := true;
      Flush();
      return err;
    }
  }

  lemma ValidFirst(text: seq<byte>)
    requires Valid(text) && text != []
    ensures 0 < First(text) <= 4
  {}

  /** A whole stream: every text in turn, timer flushes in between where `ticks` says
      so, then close.  Without errors the events add up to exactly what was emitted. */
  method StreamAll(sink: StreamSink, texts: seq<seq<byte>>, ticks: nat -> bool)
    requires sink.Ok() && sink.err.None? && !sink.closed && sink.Text() == []
    requires forall i :: 0 <= i < |texts| ==> Valid(texts[i])
    modifies sink
    ensures sink.Ok() && Concat(sink.deltas) + sink.pending <= Concat(texts)
    ensures Recorded(sink.attempt, sink.deltas, sink.flushes, sink.err.None?)
    ensures sink.err.None? ==> Concat(sink.deltas) == Concat(texts)
    ensures sink.Reliable() ==> sink.err.None?
  {
    hide Valid, Deliverable, Greedy, StreamSink.Ok, Recorded;
    var i := 0;
    while i < |texts| && sink.err.None?
      invariant 0 <= i <= |texts| && sink.Ok() && !sink.closed
      invariant sink.Text() <= Concat(texts[..i])
      invariant sink.err.None? ==> sink.Text() == Concat(texts[..i])
      invariant sink.Reliable() ==> sink.err.None?
      decreases |texts| - i
    {
      assert texts[..i + 1] == texts[..i] + [texts[i]];
      ConcatAppend(texts[..i], texts[i]);
      var outcome := sink.Emit(texts[i], true);
      if ticks(i) {
        sink.Flush();
      }
      i := i + 1;
    }
    var result := sink.Close();
    ConcatPrefix(texts, i);
    sink.IsRecorded();
    assert texts[..|texts|] == texts;
  }

  lemma {:induction false} ConcatPrefix(parts: seq<seq<byte>>, i: nat)
    requires i <= |parts|
    ensures Concat(parts[..i]) <= Concat(parts)
    decreases |parts|
  {
    if i < |parts| {
      ConcatPrefix(parts[..|parts| - 1], i);
      assert parts[..|parts| - 1][..i] == parts[..i];
    } else {
      assert parts[..i] == parts;
    }
  }

  lemma IsLargestFits(id: string, text: seq<byte>, n: nat)
    requires IsLargest(id, text, n)
    ensures n <= |text|
  {}

  lemma PrefixDeliverable(id: string, text: seq<byte>, n: nat)
    requires Valid(text) && IsLargest(id, text, n) && n > 0
    ensures n <= |text| && Deliverable(id, text[..n]) && Valid(text[n..])
  {
    ValidSplit(text, n);
  }
}
