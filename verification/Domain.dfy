/** Protocol-independent business values shared by every component
    (internal/domain/types.go).  Machine integers are subset types of `int`, so
    that every arithmetic step below carries its own no-overflow obligation. */
module Domain {

  const MAX_INT64: int := 0x7FFF_FFFF_FFFF_FFFF
  const MAX_UINT64: int := 0xFFFF_FFFF_FFFF_FFFF

  type byte = x: int | 0 <= x < 256
  type uint32 = x: int | 0 <= x <= 0xFFFF_FFFF
  type uint64 = x: int | 0 <= x <= 0xFFFF_FFFF_FFFF_FFFF
  type int64 = x: int | -0x8000_0000_0000_0000 <= x <= 0x7FFF_FFFF_FFFF_FFFF

  /** Trusted database time.  Zero is Go's zero `time.Time`. */
  type Instant = nat

  datatype Option<+T> = None | Some(value: T)

  datatype Error =
    | ErrInvalid | ErrNotFound | ErrForbidden | ErrConflict | ErrFenced | ErrTerminal
    | ErrTransition | ErrUntrusted | ErrReconciliation | ErrOverflow | ErrCapacity
    | ErrReset | ErrAlreadyDispatched | ErrClosed | ErrAppend | ErrLogLimit

  datatype Result<+T> = Success(value: T) | Failure(error: Error)

  predicate IdChar(c: char) {
    'a' <= c <= 'z' || 'A' <= c <= 'Z' || '0' <= c <= '9' || c == '-' || c == '_'
  }

  predicate ValidId(id: string) {
    1 <= |id| <= 128 && forall i :: 0 <= i < |id| ==> IdChar(id[i])
  }

  predicate IsSpace(c: char) {
    '\t' <= c <= '\r' || c == ' ' || c == '\U{85}' || c == '\U{A0}' || c == '\U{1680}'
    || '\U{2000}' <= c <= '\U{200A}' || c == '\U{2028}' || c == '\U{2029}'
    || c == '\U{202F}' || c == '\U{205F}' || c == '\U{3000}'
  }

  /** `strings.TrimSpace(s) == ""` */
  predicate Blank(s: string) {
    forall i :: 0 <= i < |s| ==> IsSpace(s[i])
  }

  datatype Lease = Lease(owner: string, epoch: uint64, until: Instant) {
    /** The expiry boundary is exclusive. */
    predicate ValidAt(at: Instant) {
      !Blank(owner) && epoch > 0 && at != 0 && at < until
    }
  }

  const NO_LEASE := Lease("", 0, 0)

  /** Ledger addition of micro-dollars. */
  function MoneyAdd(m: int64, other: int64): (r: Result<int64>)
    ensures r.Success? <==> m >= 0 && other >= 0 && m + other <= MAX_INT64
    ensures r.Success? ==> r.value - m == other
    ensures r == Failure(ErrInvalid) <==> m < 0 || other < 0
    ensures r == Failure(ErrOverflow) <==> m >= 0 && other >= 0 && m + other > MAX_INT64
  {
    if m < 0 || other < 0 then Failure(ErrInvalid)
    else if m > MAX_INT64 - other then Failure(ErrOverflow)
    else Success(m + other)
  }
}
