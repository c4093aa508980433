/** The provider quota ledger and circuit breaker (internal/quota/store.go).  Each
    transaction is a function on the tables, given the clock read after the group
    lock; `Store` performs the same transactions on mutable tables. */
module Quota {
  import opened Domain

  datatype Key = Key(tenant: string, attempt: string)
  datatype Status = Reserved | Unknown | Settled
  datatype Outcome = Succeeded | Failed | Neutral
  datatype SettlementKind = ActualUsage | NotDispatched
  datatype Settlement = Settlement(tokens: int, cost: int)

  datatype Config = Config(group: string, maxConcurrent: int, maxTokens: int, maxCost: int, window: int, threshold: int, cooldown: int)

  datatype Request = Request(key: Key, run: string, group: string, input: int, maxOutput: int, maxCost: int,
                             priceVersion: string, deadline: Instant) {
    function Tokens(): int { input + maxOutput }
  }

  /** The request hash is injective, so the row keeps the request itself. */
  datatype Reservation = Reservation(
    request: Request, status: Status, slotReleased: bool, dispatchedAt: Option<Instant>,
    actual: Option<Settlement>, kind: Option<SettlementKind>, outcome: Option<Outcome>, generation: int)

  datatype Snapshot = Snapshot(
    maxConcurrent: int, maxTokens: int, maxCost: int,
    active: int, reservedTokens: int, committedTokens: int, reservedCost: int, committedCost: int,
    windowEndsAt: Instant, generation: int, breakerUntil: Option<Instant>, failures: int, probe: Option<Key>,
    window: nat, threshold: int, cooldown: nat)

  datatype Db = Db(quotas: map<string, Snapshot>, rows: seq<Reservation>)

  // ----- validation ------------------------------------------------------------------------

  const DAY := 86_400_000

  predicate ValidConfig(c: Config) {
    && 1 <= |c.group| <= 128 && c.maxConcurrent > 0 && 0 <= c.maxTokens <= MAX_INT64 && 0 <= c.maxCost <= MAX_INT64
    && 1 <= c.window <= 365 * DAY && c.threshold > 0 && 1 <= c.cooldown <= DAY
  }

  predicate ValidRequest(r: Request) {
    && ValidId(r.key.tenant) && ValidId(r.run) && ValidId(r.key.attempt) && 1 <= |r.group| <= 128
    && r.priceVersion != "" && r.deadline != 0
    && 0 <= r.input && 0 < r.maxOutput && r.input <= MAX_INT64 - r.maxOutput && 0 <= r.maxCost <= MAX_INT64
  }

  function Configure(db: Db, c: Config, now: Instant): Db {
    if !ValidConfig(c) then db
    else if c.group in db.quotas then
      db.(quotas := db.quotas[c.group := db.quotas[c.group].(maxConcurrent := c.maxConcurrent, maxTokens := c.maxTokens,
                                         maxCost := c.maxCost, window := c.window, threshold := c.threshold, cooldown := c.cooldown)])
    else
      db.(quotas := db.quotas[c.group := Snapshot(c.maxConcurrent, c.maxTokens, c.maxCost, 0, 0, 0, 0, 0,
                                         now + c.window, 1, None, 0, None, c.window, c.threshold, c.cooldown)])
  }

  // ----- maintenance -------------------------------------------------------------------------

  /** `lockGroup`: a finished window forgets what was committed, never what is reserved. */
  function Rotate(q: Snapshot, now: Instant): Snapshot {
    if now < q.windowEndsAt then q
    else q.(committedTokens := 0, committedCost := 0, generation := q.generation + 1, windowEndsAt := now + q.window)
  }

  function Reopen(q: Snapshot, now: Instant): Snapshot { q.(breakerUntil := Some(now + q.cooldown), probe := None) }

  predicate Overdue(r: Reservation, group: string, now: Instant) {
    r.request.group == group && !r.slotReleased && r.request.deadline <= now
  }

  function SweepRow(r: Reservation, group: string, now: Instant): Reservation {
    if Overdue(r, group, now) then r.(slotReleased := true, status := if r.status == Settled then Settled else Unknown) else r
  }

  function SweepRows(rows: seq<Reservation>, group: string, now: Instant): (r: seq<Reservation>)
    ensures |r| == |rows| && forall i :: 0 <= i < |rows| ==> r[i] == SweepRow(rows[i], group, now)
  {
    if rows == [] then [] else SweepRows(rows[..|rows| - 1], group, now) + [SweepRow(rows[|rows| - 1], group, now)]
  }

  function OverdueCount(rows: seq<Reservation>, group: string, now: Instant): nat {
    if rows == [] then 0
    else OverdueCount(rows[..|rows| - 1], group, now) + (if Overdue(rows[|rows| - 1], group, now) then 1 else 0)
  }

  predicate ProbeOverdue(rows: seq<Reservation>, group: string, now: Instant, probe: Key) {
    exists i :: 0 <= i < |rows| && rows[i].request.key == probe && Overdue(rows[i], group, now)
  }

  function Find(rows: seq<Reservation>, key: Key): (i: nat)
    ensures i <= |rows|
    ensures i < |rows| ==> rows[i].request.key == key
    ensures i == |rows| ==> forall j :: 0 <= j < |rows| ==> rows[j].request.key != key
  {
    if rows == [] then 0
    else
      var i := Find(rows[..|rows| - 1], key);
      if i < |rows| - 1 then i else if rows[|rows| - 1].request.key == key then i else |rows|
  }

  /** `expireSlots`, on the quota row: release the counted slots, give up an overdue
      probe, and recover one that settled but never reported its outcome.  None when
      the probe's reservation is missing. */
  function SweepQuota(q: Snapshot, rows: seq<Reservation>, group: string, now: Instant): Option<Snapshot> {
    var cleared := if q.probe.Some? && ProbeOverdue(rows, group, now, q.probe.value) then Reopen(q, now) else q;
    var released := cleared.(active := q.active - OverdueCount(rows, group, now));
    if released.probe.None? then Some(released)
    else
      var i := Find(rows, released.probe.value);
      if i == |rows| then None
      else if now < rows[i].request.deadline then Some(released) else Some(Reopen(released, now))
  }

  // ----- admission ----------------------------------------------------------------------------

  datatype Denial = CircuitOpen | ProbeInProgress | ConcurrencyLimit | TokenBudget | CostBudget

  datatype Answer = Admitted(row: Reservation) | Existing(row: Reservation) | Denied(reason: Denial) | Rejected(error: Error)

  function DenialOf(q: Snapshot, r: Request, now: Instant): Option<Denial> {
    if q.breakerUntil.Some? && now < q.breakerUntil.value then Some(CircuitOpen)
    else if q.breakerUntil.Some? && q.probe.Some? then Some(ProbeInProgress)
    else if q.active >= q.maxConcurrent then Some(ConcurrencyLimit)
    else if q.committedTokens > q.maxTokens || q.reservedTokens > q.maxTokens - q.committedTokens
            || r.Tokens() > q.maxTokens - q.committedTokens - q.reservedTokens then Some(TokenBudget)
    else if q.committedCost > q.maxCost || q.reservedCost > q.maxCost - q.committedCost
            || r.maxCost > q.maxCost - q.committedCost - q.reservedCost then Some(CostBudget)
    else None
  }

  function Fresh(r: Request, generation: int): Reservation { Reservation(r, Reserved, false, None, None, None, None, generation) }

  function Admit(q: Snapshot, r: Request): Snapshot {
    q.(active := q.active + 1, reservedTokens := q.reservedTokens + r.Tokens(), reservedCost := q.reservedCost + r.maxCost,
       probe := if q.breakerUntil.Some? then Some(r.key) else q.probe)
  }

  /** Refusals roll the transaction back, except that a denial keeps the maintenance. */
  function Reserve(db: Db, r: Request, now: Instant): (Db, Answer) {
    if !ValidRequest(r) then (db, Rejected(ErrInvalid))
    else if r.group !in db.quotas then (db, Rejected(ErrNotFound))
    else
      var swept := SweepQuota(Rotate(db.quotas[r.group], now), db.rows, r.group, now);
      if swept.None? then (db, Rejected(ErrNotFound))
      else
        var q, rows := swept.value, SweepRows(db.rows, r.group, now);
        var i := Find(rows, r.key);
        if i < |rows| then
          if rows[i].request != r then (db, Rejected(ErrConflict))
          else (Db(db.quotas[r.group := q], rows), Existing(rows[i]))
        else if r.deadline <= now then (db, Rejected(ErrInvalid))
        else
          var denial := DenialOf(q, r, now);
          if denial.Some? then (Db(db.quotas[r.group := q], rows), Denied(denial.value))
          else
            var row := Fresh(r, q.generation);
            (Db(db.quotas[r.group := Admit(q, r)], rows + [row]), Admitted(row))
  }

  function ExpireRequestSlots(db: Db, group: string, now: Instant): (Db, Result<nat>) {
    if group !in db.quotas then (db, Failure(ErrNotFound))
    else
      var swept := SweepQuota(Rotate(db.quotas[group], now), db.rows, group, now);
      if swept.None? then (db, Failure(ErrNotFound))
      else (Db(db.quotas[group := swept.value], SweepRows(db.rows, group, now)), Success(OverdueCount(db.rows, group, now)))
  }

  // ----- mutations of one reservation -----------------------------------------------------------

  datatype Action =
    | Dispatch | MarkUnknown | CompleteUnknownUsage
    | Settle(actual: Settlement, kind: SettlementKind)
    | RecordOutcome(outcome: Outcome)

  function OwnsProbe(q: Snapshot, r: Reservation): bool { q.probe == Some(r.request.key) }

  datatype Effect = Effect(q: Snapshot, r: Reservation)

  function SettleEffect(q: Snapshot, r: Reservation, now: Instant, actual: Settlement, kind: SettlementKind): Result<Effect> {
    if r.status == Settled then
      if r.kind == Some(kind) && r.actual == Some(actual) then Success(Effect(q, r)) else Failure(ErrConflict)
    else if kind == NotDispatched && r.dispatchedAt.Some? then Failure(ErrAlreadyDispatched)
    else if kind == ActualUsage && r.dispatchedAt.None? then Failure(ErrConflict)
    else if actual.tokens > MAX_INT64 - q.committedTokens then Failure(ErrOverflow)
    else if q.committedCost < 0 || actual.cost < 0 then Failure(ErrInvalid)
    else if q.committedCost > MAX_INT64 - actual.cost then Failure(ErrOverflow)
    else
      var charged := q.(reservedTokens := q.reservedTokens - r.request.Tokens(), reservedCost := q.reservedCost - r.request.maxCost,
                        committedTokens := q.committedTokens + actual.tokens, committedCost := q.committedCost + actual.cost,
                        active := if r.slotReleased then q.active else q.active - 1);
      Success(Effect(if kind == NotDispatched && OwnsProbe(charged, r) then Reopen(charged, now) else charged,
                     r.(status := Settled, actual := Some(actual), kind := Some(kind), slotReleased := true)))
  }

  function OutcomeEffect(q: Snapshot, r: Reservation, now: Instant, outcome: Outcome): Result<Effect> {
    if r.outcome.Some? then
      if r.outcome == Some(outcome) then Success(Effect(q, r)) else Failure(ErrConflict)
    else if r.dispatchedAt.None? then Failure(ErrConflict)
    else
      var probe := OwnsProbe(q, r);
      var next := match outcome
        case Succeeded => if q.breakerUntil.None? || probe then q.(failures := 0, breakerUntil := None, probe := None) else q
        case Failed =>
          var counted := if q.failures < q.threshold then q.(failures := q.failures + 1) else q;
          if counted.failures >= q.threshold || probe then Reopen(counted, now) else counted
        case Neutral => if probe then Reopen(q, now) else q;
      Success(Effect(next, r.(outcome := Some(outcome))))
  }

  function ActEffect(q: Snapshot, r: Reservation, now: Instant, action: Action): Result<Effect> {
    match action
    case Dispatch =>
      if r.dispatchedAt.Some? then Failure(ErrAlreadyDispatched)
      else if r.status != Reserved || r.slotReleased || r.request.deadline <= now then Failure(ErrConflict)
      else Success(Effect(q, r.(dispatchedAt := Some(now))))
    case MarkUnknown =>
      if r.status == Settled then Failure(ErrConflict) else Success(Effect(q, r.(status := Unknown)))
    case CompleteUnknownUsage =>
      if r.dispatchedAt.None? || r.status == Settled then Failure(ErrConflict)
      else Success(Effect(if r.slotReleased then q else q.(active := q.active - 1), r.(status := Unknown, slotReleased := true)))
    case Settle(actual, kind) => SettleEffect(q, r, now, actual, kind)
    case RecordOutcome(outcome) => OutcomeEffect(q, r, now, outcome)
  }

  /** Settlements are non-negative; an abandoned reservation settles at zero. */
  predicate ValidAction(action: Action) {
    action.Settle? ==> 0 <= action.actual.tokens <= MAX_INT64 && 0 <= action.actual.cost <= MAX_INT64
                       && (action.kind == NotDispatched ==> action.actual == Settlement(0, 0))
  }

  function Mutate(db: Db, key: Key, action: Action, now: Instant): (Db, Result<()>) {
    if !ValidAction(action) then (db, Failure(ErrInvalid))
    else
      var i := Find(db.rows, key);
      if i == |db.rows| then (db, Failure(ErrNotFound))
      else
        var group := db.rows[i].request.group;
        if group !in db.quotas then (db, Failure(ErrNotFound))
        else
          var e := ActEffect(Rotate(db.quotas[group], now), db.rows[i], now, action);
          if e.Failure? then (db, Failure(e.error))
          else (Db(db.quotas[group := e.value.q], db.rows[i := e.value.r]), Success(()))
  }

  // ----- the same transactions on mutable tables ---------------------------------------------------

  class Store {
    var quotas: map<string, Snapshot>
    var rows: seq<Reservation>

    function State(): Db reads this { Db(quotas, rows) }

    constructor ()
      ensures State() == Db(map[], [])
    {
      quotas, rows := map[], [];
    }

    method DoConfigure(c: Config, now: Instant) returns (result: Result<()>)
      modifies this
      ensures State() == Configure(old(State()), c, now)
      ensures result.Success? <==> ValidConfig(c)
    {
      if !ValidConfig(c) {
        return Failure(ErrInvalid);
      }
      if c.group in quotas {
        quotas := quotas[c.group := quotas[c.group].(maxConcurrent := c.maxConcurrent, maxTokens := c.maxTokens,
                                     maxCost := c.maxCost, window := c.window, threshold := c.threshold, cooldown := c.cooldown)];
      } else {
        quotas := quotas[c.group := Snapshot(c.maxConcurrent, c.maxTokens, c.maxCost, 0, 0, 0, 0, 0,
                                     now + c.window, 1, None, 0, None, c.window, c.threshold, c.cooldown)];
      }
      return Success(());
    }

    /** The update-returning query and the loop over the rows it returns. */
    method ExpireSlots(group: string, locked: Snapshot, now: Instant) returns (result: Result<nat>, q: Snapshot, swept: seq<Reservation>)
      ensures result.Success? <==> SweepQuota(locked, rows, group, now).Some?
      ensures result.Success? ==>
        q == SweepQuota(locked, rows, group, now).value && swept == SweepRows(rows, group, now)
        && result.value == OverdueCount(rows, group, now)
      ensures result.Failure? ==> result.error == ErrNotFound
    {
      q, swept := locked, [];
      var count, i := 0, 0;
      while i < |rows|
        invariant 0 <= i <= |rows|
        invariant swept == SweepRows(rows[..i], group, now) && count == OverdueCount(rows[..i], group, now)
        invariant q == if locked.probe.Some? && ProbeOverdue(rows[..i], group, now, locked.probe.value) then Reopen(locked, now) else locked
      {
        assert rows[..i + 1][..i] == rows[..i];
        swept := swept + [SweepRow(rows[i], group, now)];
        ghost var seen := locked.probe.Some? && ProbeOverdue(rows[..i], group, now, locked.probe.value);
        if Overdue(rows[i], group, now) {
          count := count + 1;
          if q.probe == Some(rows[i].request.key) {
            q := q.(probe := None, breakerUntil := Some(now + q.cooldown));
            assert ProbeOverdue(rows[..i + 1], group, now, locked.probe.value) by {
              assert rows[..i + 1][i] == rows[i];
            }
          }
        }
        assert seen ==> ProbeOverdue(rows[..i + 1], group, now, locked.probe.value) by {
          if seen {
            var j :| 0 <= j < i && rows[j].request.key == locked.probe.value && Overdue(rows[j], group, now);
            assert rows[..i + 1][j] == rows[j];
          }
        }
        assert forall j :: 0 <= j < i ==> rows[..i + 1][j] == rows[..i][j];
        i := i + 1;
      }
      assert rows[..|rows|] == rows;
      q := q.(active := q.active - count);
      if q.probe.Some? {
        var k := Find(rows, q.probe.value);
        if k == |rows| {
          return Failure(ErrNotFound), locked, rows;
        }
        if rows[k].request.deadline <= now {
          q := Reopen(q, now);
        }
      }
      return Success(count), q, swept;
    }

    method DoReserve(r: Request, now: Instant) returns (answer: Answer)
      modifies this
      ensures (State(), answer) == Reserve(old(State()), r, now)
    {
      if !ValidRequest(r) {
        return Rejected(ErrInvalid);
      }
      if r.group !in quotas {
        return Rejected(ErrNotFound);
      }
      var result, q, swept := ExpireSlots(r.group, Rotate(quotas[r.group], now), now);
      if result.Failure? {
        return Rejected(ErrNotFound);
      }
      var i := Find(swept, r.key);
      if i < |swept| {
        if swept[i].request != r {
          return Rejected(ErrConflict);
        }
        quotas, rows := quotas[r.group := q], swept;
        return Existing(swept[i]);
      }
      if r.deadline <= now {
        return Rejected(ErrInvalid);
      }
      var denial := DenialOf(q, r, now);
      if denial.Some? {
        quotas, rows := quotas[r.group := q], swept;
        return Denied(denial.value);
      }
      var row := Fresh(r, q.generation);
      q := q.(active := q.active + 1, reservedTokens := q.reservedTokens + r.Tokens(), reservedCost := q.reservedCost + r.maxCost);
      if q.breakerUntil.Some? {
        q := q.(probe := Some(r.key));
      }
      quotas, rows := quotas[r.group := q], swept + [row];
      return Admitted(row);
    }

    method DoMutate(key: Key, action: Action, now: Instant) returns (result: Result<()>)
      modifies this
      ensures (State(), result) == Mutate(old(State()), key, action, now)
    {
      if !ValidAction(action) {
        return Failure(ErrInvalid);
      }
      var i := Find(rows, key);
      if i == |rows| {
        return Failure(ErrNotFound);
      }
      var group := rows[i].request.group;
      if group !in quotas {
        return Failure(ErrNotFound);
      }
      var e := ActEffect(Rotate(quotas[group], now), rows[i], now, action);
      if e.Failure? {
        return Failure(e.error);
      }
      quotas, rows := quotas[group := e.value.q], rows[i := e.value.r];
      return Success(());
    }

    method DoExpireRequestSlots(group: string, now: Instant) returns (result: Result<nat>)
      modifies this
      ensures (State(), result) == ExpireRequestSlots(old(State()), group, now)
    {
      if group !in quotas {
        return Failure(ErrNotFound);
      }
      var count, q, swept := ExpireSlots(group, Rotate(quotas[group], now), now);
      if count.Success? {
        quotas, rows := quotas[group := q], swept;
      }
      return count;
    }
  }
}
