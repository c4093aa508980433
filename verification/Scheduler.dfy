/** Scheduler accounting over the run, tenant, runner and allocation tables
    (internal/persistence/scheduler.go, execution.go, capacity.go).  A transaction is
    a function on the tables; `SchedulerStore` performs it write by write on a private
    copy and commits the copy, so that an error leaves the tables alone. */
module Scheduler {
  import opened Domain
  import opened RunTypes
  import Reducer

  datatype Key = Key(tenant: string, run: string)
  datatype Tenant = Tenant(activeCount: int, maxActive: int)
  datatype Runner = Runner(reservedSlots: int, maxSlots: int, enabled: bool)
  datatype RunRow = RunRow(state: State, runner: Option<string>, notBefore: Instant, held: bool, commands: seq<Command>)
  datatype AllocationState = Reserved | Active | Uncertain | Released
  datatype Allocation = Allocation(key: Key, runner: string, epoch: nat, state: AllocationState, slots: int)

  datatype Db = Db(tenants: map<string, Tenant>, runners: map<string, Runner>, runs: map<Key, RunRow>, allocations: seq<Allocation>)

  function Find(allocations: seq<Allocation>, key: Key): (i: nat)
    ensures i <= |allocations|
    ensures i < |allocations| ==> allocations[i].key == key
    ensures forall j :: 0 <= j < i ==> allocations[j].key != key
  {
    if allocations == [] then 0
    else
      var i := Find(allocations[..|allocations| - 1], key);
      if i < |allocations| - 1 then i else if allocations[|allocations| - 1].key == key then i else |allocations|
  }

  predicate Allocated(db: Db, key: Key) {
    var i := Find(db.allocations, key); i < |db.allocations| && db.allocations[i].state != Released
  }

  // ----- pieces of a transaction ---------------------------------------------------------------

  function AddActive(db: Db, tenant: string, n: int): Db {
    if tenant !in db.tenants then db
    else db.(tenants := db.tenants[tenant := db.tenants[tenant].(activeCount := db.tenants[tenant].activeCount + n)])
  }

  function AddSlots(db: Db, runner: string, n: int): Db {
    if runner !in db.runners then db
    else db.(runners := db.runners[runner := db.runners[runner].(reservedSlots := db.runners[runner].reservedSlots + n)])
  }

  function Release(db: Db, key: Key): Db {
    if !Allocated(db, key) then db
    else
      var i := Find(db.allocations, key);
      var a := db.allocations[i];
      AddActive(AddSlots(db.(allocations := db.allocations[i := a.(state := Released)]), a.runner, -a.slots), key.tenant, -1)
  }

  /** INSERT ... ON CONFLICT: a known allocation keeps its runner and its slots. */
  function Upsert(allocations: seq<Allocation>, key: Key, runner: string, epoch: nat): seq<Allocation> {
    var i := Find(allocations, key);
    if i < |allocations| then allocations[i := allocations[i].(epoch := epoch, state := Reserved)]
    else allocations + [Allocation(key, runner, epoch, Reserved, 1)]
  }

  predicate ControlEvent(kind: EventKind) {
    kind == EventClaimed || kind == EventCancelRequested || kind == EventApprovalDecided || kind == EventResumeRequested
  }

  predicate GivesUpSlot(status: RunStatus) { status.Terminal() || status == StatusWaitingApproval }

  /** Worker events are written only under a lease still valid at `clock`. */
  predicate Fenced(row: RunRow, event: Event, clock: Instant) {
    !ControlEvent(event.kind)
    && (row.state.lease.owner != event.owner || row.state.lease.epoch != event.epoch || row.state.lease.until <= clock)
  }

  function Persist(db: Db, key: Key, next: State, commands: seq<Command>, event: Event, clock: Instant): Result<Db>
    requires key in db.runs
  {
    if db.runs[key].state.version == next.version then Success(db)
    else if Fenced(db.runs[key], event, clock) then Failure(ErrFenced)
    else
      var written := db.(runs := db.runs[key := db.runs[key].(state := next, commands := commands)]);
      Success(if GivesUpSlot(next.status) then Release(written, key) else written)
  }

  // ----- claim -----------------------------------------------------------------------------------

  const SECOND: nat := 1000

  function BlankEvent(kind: EventKind, version: uint64, owner: string, epoch: uint64, at: Instant): Event {
    Event(None, "", kind, version, owner, epoch, at, None, None, 0, "", false, false, [], None, None, None, None, 0, "")
  }

  /** Which tenant, run and runner the ordered queries pick is left open. */
  datatype ClaimRequest = ClaimRequest(key: Key, runner: string, owner: string, duration: nat, preferred: string)

  predicate Runnable(status: RunStatus) {
    status == StatusQueued || status == StatusRunning || status == StatusCancelRequested || status == StatusNeedsReconciliation
  }

  predicate Candidate(db: Db, c: ClaimRequest, now: Instant) {
    && c.key in db.runs && c.key.tenant in db.tenants
    && var row, tenant := db.runs[c.key], db.tenants[c.key.tenant];
      && !row.held && row.notBefore <= now && row.state.lease.until <= now
      && (c.preferred == "" || row.runner == None || row.runner == Some(c.preferred))
      && Runnable(row.state.status)
      && (tenant.activeCount < tenant.maxActive || Allocated(db, c.key))
  }

  predicate Eligible(db: Db, c: ClaimRequest)
    requires c.key in db.runs
  {
    && c.runner in db.runners && db.runners[c.runner].enabled && (c.preferred == "" || c.runner == c.preferred)
    && if Allocated(db, c.key) then db.allocations[Find(db.allocations, c.key)].runner == c.runner
       else db.runners[c.runner].reservedSlots < db.runners[c.runner].maxSlots
            && (db.runs[c.key].runner == None || db.runs[c.key].runner == Some(c.runner))
  }

  /** The epoch is a uint64 and wraps; the reducer refuses epoch zero. */
  function ClaimEvent(row: RunRow, c: ClaimRequest, now: Instant): Event {
    var lease := Lease(c.owner, (row.state.lease.epoch + 1) % (MAX_UINT64 + 1), now + c.duration);
    BlankEvent(EventClaimed, row.state.version, c.owner, lease.epoch, now).(lease := Some(lease))
  }

  function Postpone(db: Db, key: Key, now: Instant): Db
    requires key in db.runs
  {
    db.(runs := db.runs[key := db.runs[key].(notBefore := now + SECOND)])
  }

  /** The allocation and counters a claim commits. */
  function Place(db: Db, c: ClaimRequest, epoch: nat): Db
    requires c.key in db.runs
  {
    var counted := if Allocated(db, c.key) then db else AddSlots(AddActive(db, c.key.tenant, 1), c.runner, 1);
    counted.(allocations := Upsert(db.allocations, c.key, c.runner, epoch), runs := db.runs[c.key := db.runs[c.key].(runner := Some(c.runner))])
  }

  function Claim(db: Db, c: ClaimRequest, now: Instant): (Db, Result<RunRow>) {
    if c.owner == "" || c.duration < SECOND || c.duration > 300 * SECOND then (db, Failure(ErrInvalid))
    else if !Candidate(db, c, now) then (db, Failure(ErrNotFound))
    else if !Eligible(db, c) then (Postpone(db, c.key, now), Failure(ErrCapacity))
    else
      var event := ClaimEvent(db.runs[c.key], c, now);
      match Reducer.Transition(db.runs[c.key].state, event)
      case Rejected(error) => (db, Failure(error))
      case Accepted(next, commands) =>
        match Persist(Place(db, c, event.epoch), c.key, next, commands, event, now)
        case Failure(error) => (db, Failure(error))
        case Success(v) => (v, if c.key in v.runs then Success(v.runs[c.key]) else Failure(ErrNotFound))
  }

  // ----- the other transactions ----------------------------------------------------------------------

  /** `Advance` and the control transactions: any event but a claim or a capacity rejection. */
  function Apply(db: Db, key: Key, event: Event, evidenceReady: bool, now: Instant, clock: Instant): (Db, Result<()>) {
    if event.kind == EventClaimed || event.kind == EventCapacityRejected then (db, Failure(ErrForbidden))
    else if key.tenant !in db.tenants || key !in db.runs || db.runs[key].held then (db, Failure(ErrNotFound))
    else if !evidenceReady then (db, Failure(ErrUntrusted))
    else match Reducer.Transition(db.runs[key].state, event.(at := now))
      case Rejected(error) => (db, Failure(error))
      case Accepted(next, commands) =>
        match Persist(db, key, next, commands, event.(at := now), clock)
        case Failure(error) => (db, Failure(error))
        case Success(v) => (v, Success(()))
  }

  /** No process can be running for the run. */
  predicate ProcessFree(s: State) {
    s.status == StatusRunning && s.stopTarget == NoStatus && s.pendingEffect.None? && (s.stage == StageModel || s.stage == StageBuildContext)
  }

  /** `seen` is the worker's copy of the run. */
  function Defer(db: Db, key: Key, seen: State, notBefore: Instant, now: Instant): (Db, Result<()>) {
    if key.tenant !in db.tenants then (db, Failure(ErrNotFound))
    else if key !in db.runs then (db, Failure(ErrFenced))
    else
      var row := db.runs[key];
      if row.state.lease.owner != seen.lease.owner || row.state.lease.epoch != seen.lease.epoch || row.state.lease.until <= now
         || row.state.version != seen.version then (db, Failure(ErrFenced))
      else
        var yielded := db.(runs := db.runs[key := row.(state := row.state.(lease := row.state.lease.(until := now)), notBefore := notBefore)]);
        (if ProcessFree(seen) then Release(yielded, key) else yielded, Success(()))
  }

  function Requeue(db: Db, key: Key, seen: RunRow, hasWork: bool, now: Instant, clock: Instant): (Db, Result<()>) {
    if key.tenant !in db.tenants || key !in db.runs || db.runs[key].held then (db, Failure(ErrNotFound))
    else
      var row := db.runs[key];
      var event := BlankEvent(EventCapacityRejected, seen.state.version, seen.state.lease.owner, seen.state.lease.epoch, now).(notBefore := Some(now + SECOND));
      if row.state.version != seen.state.version || row.state.lease.owner != seen.state.lease.owner || row.state.lease.epoch != seen.state.lease.epoch
         || !row.state.lease.ValidAt(now) || row.runner.None? || row.runner != seen.runner then (db, Failure(ErrFenced))
      else if row.commands != [CommandInitializeWorkspace] then (db, Failure(ErrTransition))
      else match Reducer.Transition(row.state, event)
        case Rejected(error) => (db, Failure(error))
        case Accepted(next, commands) =>
          var i := Find(db.allocations, key);
          if hasWork || i == |db.allocations| || db.allocations[i].runner != row.runner.value || db.allocations[i].epoch != row.state.lease.epoch
             || db.allocations[i].state != Reserved || db.allocations[i].slots <= 0 then (db, Failure(ErrTransition))
          else match Persist(db, key, next, commands, event, clock)
            case Failure(error) => (db, Failure(error))
            case Success(v) => (Release(if key in v.runs then Delay(v, key, now + SECOND) else v, key), Success(()))
  }

  function Delay(db: Db, key: Key, until: Instant): Db
    requires key in db.runs
  {
    db.(runs := db.runs[key := db.runs[key].(notBefore := until)])
  }

  function Heartbeat(db: Db, key: Key, owner: string, epoch: nat, duration: nat, now: Instant): Db {
    if duration < SECOND || duration > 300 * SECOND || key !in db.runs then db
    else
      var row := db.runs[key];
      if row.state.lease.owner != owner || row.state.lease.epoch != epoch || row.state.lease.until <= now
         || !(row.state.status == StatusRunning || row.state.status == StatusCancelRequested || row.state.status == StatusNeedsReconciliation) then db
      else db.(runs := db.runs[key := row.(state := row.state.(lease := row.state.lease.(until := now + duration)))])
  }

  // ----- the same transactions on mutable tables -------------------------------------------------------

  class SchedulerStore {
    var tenants: map<string, Tenant>
    var runners: map<string, Runner>
    var runs: map<Key, RunRow>
    var allocations: seq<Allocation>

    function State(): Db reads this { Db(tenants, runners, runs, allocations) }

    constructor ()
      ensures State() == Db(map[], map[], map[], [])
    {
      tenants, runners, runs, allocations := map[], map[], map[], [];
    }

    method Commit(tx: Db)
      modifies this
      ensures State() == tx
    {
      tenants, runners, runs, allocations := tx.tenants, tx.runners, tx.runs, tx.allocations;
    }

    method ReleaseAllocation(tx: Db, key: Key) returns (next: Db)
      ensures next == Release(tx, key)
    {
      next := tx;
      var i := Find(tx.allocations, key);
      if i < |tx.allocations| && tx.allocations[i].state != Released {
        var a := tx.allocations[i];
        next := next.(allocations := next.allocations[i := a.(state := Released)]);
        if a.runner in next.runners {
          next := next.(runners := next.runners[a.runner := next.runners[a.runner].(reservedSlots := next.runners[a.runner].reservedSlots - a.slots)]);
        }
        if key.tenant in next.tenants {
          next := next.(tenants := next.tenants[key.tenant := next.tenants[key.tenant].(activeCount := next.tenants[key.tenant].activeCount - 1)]);
        }
      }
    }

    method PersistTransition(tx: Db, key: Key, next: RunTypes.State, commands: seq<Command>, event: Event, clock: Instant) returns (result: Result<Db>)
      requires key in tx.runs
      ensures result == Persist(tx, key, next, commands, event, clock)
    {
      if tx.runs[key].state.version == next.version {
        return Success(tx);
      }
      if Fenced(tx.runs[key], event, clock) {
        return Failure(ErrFenced);
      }
      var written := tx.(runs := tx.runs[key := tx.runs[key].(state := next, commands := commands)]);
      if next.status.Terminal() || next.status == StatusWaitingApproval {
        written := ReleaseAllocation(written, key);
      }
      return Success(written);
    }

    method DoClaim(c: ClaimRequest, now: Instant) returns (result: Result<RunRow>)
      modifies this
      ensures (State(), result) == Claim(old(State()), c, now)
    {
      var tx := State();
      if c.owner == "" || c.duration < SECOND || c.duration > 300 * SECOND {
        return Failure(ErrInvalid);
      }
      if !Candidate(tx, c, now) {
        return Failure(ErrNotFound);
      }
      var existing := Allocated(tx, c.key);
      if !Eligible(tx, c) {
        Commit(Postpone(tx, c.key, now));
        return Failure(ErrCapacity);
      }
      var row := tx.runs[c.key];
      var event := ClaimEvent(row, c, now);
      var outcome := Reducer.Transition(row.state, event);
      if outcome.Rejected? {
        return Failure(outcome.error);
      }
      if !existing {
        tx := AddActive(tx, c.key.tenant, 1);
        tx := AddSlots(tx, c.runner, 1);
      }
      tx := tx.(allocations := Upsert(tx.allocations, c.key, c.runner, event.epoch));
      tx := tx.(runs := tx.runs[c.key := row.(runner := Some(c.runner))]);
      var written := PersistTransition(tx, c.key, outcome.next, outcome.commands, event, now);
      if written.Failure? {
        return Failure(written.error);
      }
      Commit(written.value);
      return if c.key in runs then Success(runs[c.key]) else Failure(ErrNotFound);
    }

    method DoApply(key: Key, event: Event, evidenceReady: bool, now: Instant, clock: Instant) returns (result: Result<()>)
      modifies this
      ensures (State(), result) == Apply(old(State()), key, event, evidenceReady, now, clock)
    {
      if event.kind == EventClaimed || event.kind == EventCapacityRejected {
        return Failure(ErrForbidden);
      }
      if key.tenant !in tenants || key !in runs || runs[key].held {
        return Failure(ErrNotFound);
      }
      if !evidenceReady {
        return Failure(ErrUntrusted);
      }
      var stamped := event.(at := now);
      var outcome := Reducer.Transition(runs[key].state, stamped);
      if outcome.Rejected? {
        return Failure(outcome.error);
      }
      var written := PersistTransition(State(), key, outcome.next, outcome.commands, stamped, clock);
      if written.Failure? {
        return Failure(written.error);
      }
      Commit(written.value);
      return Success(());
    }

    method DoDefer(key: Key, seen: RunTypes.State, notBefore: Instant, now: Instant) returns (result: Result<()>)
      modifies this
      ensures (State(), result) == Defer(old(State()), key, seen, notBefore, now)
    {
      if key.tenant !in tenants {
        return Failure(ErrNotFound);
      }
      if key !in runs || runs[key].state.lease.owner != seen.lease.owner || runs[key].state.lease.epoch != seen.lease.epoch
         || runs[key].state.lease.until <= now || runs[key].state.version != seen.version {
        return Failure(ErrFenced);
      }
      var row, tx := runs[key], State();
      tx := tx.(runs := tx.runs[key := row.(state := row.state.(lease := row.state.lease.(until := now)), notBefore := notBefore)]);
      if ProcessFree(seen) {
        tx := ReleaseAllocation(tx, key);
      }
      Commit(tx);
      return Success(());
    }

    method DoRequeue(key: Key, seen: RunRow, hasWork: bool, now: Instant, clock: Instant) returns (result: Result<()>)
      modifies this
      ensures (State(), result) == Requeue(old(State()), key, seen, hasWork, now, clock)
    {
      if key.tenant !in tenants || key !in runs || runs[key].held {
        return Failure(ErrNotFound);
      }
      var row := runs[key];
      if row.state.version != seen.state.version || row.state.lease.owner != seen.state.lease.owner || row.state.lease.epoch != seen.state.lease.epoch
         || !row.state.lease.ValidAt(now) || row.runner.None? || row.runner != seen.runner {
        return Failure(ErrFenced);
      }
      if row.commands != [CommandInitializeWorkspace] {
        return Failure(ErrTransition);
      }
      var event := BlankEvent(EventCapacityRejected, seen.state.version, seen.state.lease.owner, seen.state.lease.epoch, now).(notBefore := Some(now + SECOND));
      var outcome := Reducer.Transition(row.state, event);
      if outcome.Rejected? {
        return Failure(outcome.error);
      }
      var i := Find(allocations, key);
      if hasWork || i == |allocations| || allocations[i].runner != row.runner.value || allocations[i].epoch != row.state.lease.epoch
         || allocations[i].state != Reserved || allocations[i].slots <= 0 {
        return Failure(ErrTransition);
      }
      var written := PersistTransition(State(), key, outcome.next, outcome.commands, event, clock);
      if written.Failure? {
        return Failure(written.error);
      }
      var tx := written.value;
      if key in tx.runs {
        tx := tx.(runs := tx.runs[key := tx.runs[key].(notBefore := now + SECOND)]);
      }
      tx := ReleaseAllocation(tx, key);
      Commit(tx);
      return Success(());
    }
  }
}
