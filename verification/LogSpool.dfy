/** The framed log spool (internal/runner/log_capture.go): frame layout, the
    crash-tolerant prefix reader, and what a truncated spool still yields. */
module LogSpool {
  import opened Domain

  /** CRC-32 is any function of the payload. */
  type Checksum = seq<byte> -> uint32

  const HEADER := 32

  /** Bounds the runner's policy normalisation guarantees; EntryBytes fits the 32-bit
      length field and spools stay within int64. */
  datatype Policy = Policy(entryBytes: nat, operationBytes: nat, previewBytes: nat, runBytes: nat, maxOperations: nat)

  ghost predicate ValidPolicy(p: Policy) {
    HEADER < p.entryBytes <= 0xFFFF_FFFF && p.operationBytes <= MAX_INT64 && p.runBytes <= MAX_INT64
  }

  /** One framed piece of one stream (1 stdout, 2 stderr). */
  datatype Chunk = Chunk(stream: byte, payload: seq<byte>)

  predicate ValidChunk(c: Chunk, p: Policy) { 1 <= c.stream <= 2 && 1 <= |c.payload| <= p.entryBytes - HEADER }

  // ----- big-endian numbers ------------------------------------------------------------------

  function Pow256(k: nat): (r: nat)
    ensures r > 0
  {
    if k == 0 then 1 else 256 * Pow256(k - 1)
  }

  function BigEndian(n: nat, k: nat): (r: seq<byte>)
    ensures |r| == k
  {
    if k == 0 then [] else BigEndian(n / 256, k - 1) + [n % 256]
  }

  function Number(s: seq<byte>): nat {
    if s == [] then 0 else 256 * Number(s[..|s| - 1]) + s[|s| - 1]
  }

  lemma {:induction false} NumberOfBigEndian(n: nat, k: nat)
    requires n < Pow256(k)
    ensures Number(BigEndian(n, k)) == n
  {
    if k > 0 {
      assert n / 256 < Pow256(k - 1);
      NumberOfBigEndian(n / 256, k - 1);
      assert BigEndian(n, k)[..k - 1] == BigEndian(n / 256, k - 1);
    }
  }

  lemma Powers()
    ensures Pow256(4) == 0x1_0000_0000 && Pow256(8) == MAX_UINT64 + 1
  {
    assert Pow256(1) == 256 && Pow256(2) == 0x1_0000 && Pow256(3) == 0x100_0000;
    assert Pow256(5) == 0x100_0000_0000 && Pow256(6) == 0x1_0000_0000_0000;
  }

  // ----- frames -----------------------------------------------------------------------------------

  const MAGIC: seq<byte> := [0x46, 0x4C, 0x47, 0x31]
  const ZEROS3: seq<byte> := [0, 0, 0]
  const ZEROS8: seq<byte> := [0, 0, 0, 0, 0, 0, 0, 0]

  function Header(c: Chunk, index: nat, crc: Checksum): (h: seq<byte>)
    ensures |h| == HEADER
  {
    MAGIC + [c.stream] + ZEROS3 + BigEndian(index, 8) + BigEndian(|c.payload|, 4) + BigEndian(crc(c.payload), 4) + ZEROS8
  }

  function Frame(c: Chunk, index: nat, crc: Checksum): (f: seq<byte>)
    ensures |f| == HEADER + |c.payload|
  {
    Header(c, index, crc) + c.payload
  }

  /** The spool holding `chunks`, numbered from `index`. */
  function Encode(chunks: seq<Chunk>, index: nat, crc: Checksum): seq<byte> {
    if chunks == [] then [] else Frame(chunks[0], index, crc) + Encode(chunks[1..], index + 1, crc)
  }

  /** The frame at the front of `data`, if it is whole and every field checks out. */
  function Head(data: seq<byte>, index: nat, p: Policy, crc: Checksum): (r: Option<Chunk>)
    ensures r.Some? ==> ValidChunk(r.value, p) && HEADER + |r.value.payload| <= |data|
  {
    if |data| < HEADER then None
    else
      var n := Number(data[16..20]);
      if data[..4] != MAGIC || data[4] < 1 || data[4] > 2 || data[5..8] != ZEROS3 || data[24..32] != ZEROS8
         || Number(data[8..16]) != index || n < 1 || n > p.entryBytes - HEADER || n > |data| - HEADER then None
      else
        var payload := data[HEADER..HEADER + n];
        if crc(payload) != Number(data[20..24]) then None else Some(Chunk(data[4], payload))
  }

  /** The checked frames at the front of `data`. */
  function Parse(data: seq<byte>, index: nat, p: Policy, crc: Checksum): seq<Chunk>
    decreases |data|
  {
    match Head(data, index, p, crc)
    case None => []
    case Some(c) => [c] + Parse(data[HEADER + |c.payload|..], index + 1, p, crc)
  }

  // ----- round trip -------------------------------------------------------------------------------

  lemma HeaderFields(c: Chunk, index: nat, crc: Checksum)
    ensures var h := Header(c, index, crc);
      && h[..4] == MAGIC && h[4] == c.stream && h[5..8] == ZEROS3 && h[24..32] == ZEROS8
      && h[8..16] == BigEndian(index, 8) && h[16..20] == BigEndian(|c.payload|, 4) && h[20..24] == BigEndian(crc(c.payload), 4)
  {
    hide BigEndian;
  }

  /** A frame, whole or cut, followed by anything. */
  lemma HeadOfFrame(c: Chunk, index: nat, p: Policy, crc: Checksum, data: seq<byte>)
    requires ValidPolicy(p) && ValidChunk(c, p) && index <= MAX_UINT64
    requires HEADER <= |data| && data[..HEADER] == Header(c, index, crc)
    requires HEADER + |c.payload| <= |data| ==> data[HEADER..HEADER + |c.payload|] == c.payload
    ensures Head(data, index, p, crc) == if HEADER + |c.payload| <= |data| then Some(c) else None
  {
    hide BigEndian, Number, Header;
    var h := data[..HEADER];
    HeaderFields(c, index, crc);
    Powers();
    NumberOfBigEndian(index, 8);
    NumberOfBigEndian(|c.payload|, 4);
    NumberOfBigEndian(crc(c.payload), 4);
    assert data[..4] == h[..4] && data[5..8] == h[5..8] && data[24..32] == h[24..32];
    assert data[8..16] == h[8..16] && data[16..20] == h[16..20] && data[20..24] == h[20..24];
  }

  /** How many whole frames fit in the first `k` bytes. */
  function Whole(chunks: seq<Chunk>, k: nat): (m: nat)
    ensures m <= |chunks|
  {
    if chunks == [] || HEADER + |chunks[0].payload| > k then 0 else 1 + Whole(chunks[1..], k - HEADER - |chunks[0].payload|)
  }

  /** Any truncation of a spool yields exactly its longest whole-frame prefix. */
  lemma {:induction false} ParseTruncated(chunks: seq<Chunk>, index: nat, p: Policy, crc: Checksum, k: nat)
    requires ValidPolicy(p) && (forall i :: 0 <= i < |chunks| ==> ValidChunk(chunks[i], p)) && index + |chunks| <= MAX_UINT64 + 1
    requires k <= |Encode(chunks, index, crc)|
    ensures Parse(Encode(chunks, index, crc)[..k], index, p, crc) == chunks[..Whole(chunks, k)]
    decreases |chunks|
  {
    hide Header, Head;
    if chunks == [] || k < HEADER {
      HeadShort(Encode(chunks, index, crc)[..k], index, p, crc);
    } else {
      var c, all := chunks[0], Encode(chunks, index, crc);
      var data, n := all[..k], HEADER + |c.payload|;
      assert data[..HEADER] == Header(c, index, crc);
      if n <= k {
        assert data[HEADER..n] == c.payload;
        assert data[n..] == Encode(chunks[1..], index + 1, crc)[..k - n];
        HeadOfFrame(c, index, p, crc, data);
        ParseTruncated(chunks[1..], index + 1, p, crc, k - n);
      } else {
        HeadOfFrame(c, index, p, crc, data);
      }
    }
  }

  lemma HeadShort(data: seq<byte>, index: nat, p: Policy, crc: Checksum)
    requires |data| < HEADER
    ensures Head(data, index, p, crc).None?
  {}

  lemma {:induction false} WholeAll(chunks: seq<Chunk>, index: nat, crc: Checksum)
    ensures Whole(chunks, |Encode(chunks, index, crc)|) == |chunks|
  {
    if chunks != [] {
      WholeAll(chunks[1..], index + 1, crc);
    }
  }

  /** Reading back a complete spool recovers exactly the frames written. */
  lemma RoundTrip(chunks: seq<Chunk>, p: Policy, crc: Checksum)
    requires ValidPolicy(p) && (forall i :: 0 <= i < |chunks| ==> ValidChunk(chunks[i], p)) && |chunks| <= MAX_UINT64 + 1
    ensures Parse(Encode(chunks, 0, crc), 0, p, crc) == chunks
  {
    var data := Encode(chunks, 0, crc);
    ParseTruncated(chunks, 0, p, crc, |data|);
    WholeAll(chunks, 0, crc);
    assert data[..|data|] == data && chunks[..|chunks|] == chunks;
  }

  /** Whole is the longest: the next frame would not fit. */
  lemma {:induction false} WholeIsLongest(chunks: seq<Chunk>, index: nat, crc: Checksum, k: nat)
    ensures |Encode(chunks[..Whole(chunks, k)], index, crc)| <= k
    ensures Whole(chunks, k) < |chunks| ==> k < |Encode(chunks[..Whole(chunks, k) + 1], index, crc)|
    decreases |chunks|
  {
    if chunks != [] {
      var n, m := HEADER + |chunks[0].payload|, Whole(chunks, k);
      if n <= k {
        WholeIsLongest(chunks[1..], index + 1, crc, k - n);
        assert chunks[..m][1..] == chunks[1..][..m - 1];
        if m < |chunks| {
          assert chunks[..m + 1][1..] == chunks[1..][..m];
        }
      } else {
        assert chunks[..1][1..] == [];
      }
    }
  }
}
