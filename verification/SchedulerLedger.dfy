/** Conservation of scheduler capacity over every sequence of transactions. */
module SchedulerLedger {
  import opened Domain
  import opened RunTypes
  import opened Scheduler
  import Reducer

  // ----- what the allocation table says ---------------------------------------------------------

  function Held(a: Allocation): nat { if a.state == Released then 0 else 1 }

  /** Unreleased allocations of a tenant. */
  function ActiveOf(allocations: seq<Allocation>, tenant: string): int {
    if allocations == [] then 0
    else ActiveOf(allocations[..|allocations| - 1], tenant) + TenantShare(allocations[|allocations| - 1], tenant)
  }

  function TenantShare(a: Allocation, tenant: string): int { if a.key.tenant == tenant then Held(a) else 0 }

  /** Slots of the unreleased allocations on a runner. */
  function SlotsOn(allocations: seq<Allocation>, runner: string): int {
    if allocations == [] then 0
    else SlotsOn(allocations[..|allocations| - 1], runner) + RunnerShare(allocations[|allocations| - 1], runner)
  }

  function RunnerShare(a: Allocation, runner: string): int { if a.runner == runner then Held(a) * a.slots else 0 }

  lemma {:induction false} UpdateCounts(allocations: seq<Allocation>, i: nat, a: Allocation, tenant: string, runner: string)
    requires i < |allocations|
    ensures ActiveOf(allocations[i := a], tenant) == ActiveOf(allocations, tenant) - TenantShare(allocations[i], tenant) + TenantShare(a, tenant)
    ensures SlotsOn(allocations[i := a], runner) == SlotsOn(allocations, runner) - RunnerShare(allocations[i], runner) + RunnerShare(a, runner)
  {
    hide TenantShare, RunnerShare;
    var n := |allocations| - 1;
    if i < n {
      assert allocations[i := a][..n] == allocations[..n][i := a];
      UpdateCounts(allocations[..n], i, a, tenant, runner);
    } else {
      assert allocations[i := a][..n] == allocations[..n];
    }
  }

  lemma AppendCounts(allocations: seq<Allocation>, a: Allocation, tenant: string, runner: string)
    ensures ActiveOf(allocations + [a], tenant) == ActiveOf(allocations, tenant) + TenantShare(a, tenant)
    ensures SlotsOn(allocations + [a], runner) == SlotsOn(allocations, runner) + RunnerShare(a, runner)
  {
    assert (allocations + [a])[..|allocations|] == allocations;
  }

  // ----- the invariant -----------------------------------------------------------------------------

  ghost predicate KeysUnique(allocations: seq<Allocation>) {
    forall i, j :: 0 <= i < j < |allocations| ==> allocations[i].key != allocations[j].key
  }

  /** An allocation stays on the runner its run is bound to, and a run that has
      stopped or waits for approval holds no slot. */
  ghost predicate AllocationOk(db: Db, a: Allocation) {
    && a.slots == 1 && a.key in db.runs && db.runs[a.key].runner == Some(a.runner)
    && a.key.tenant in db.tenants && a.runner in db.runners
    && (a.state != Released ==> !GivesUpSlot(db.runs[a.key].state.status))
  }

  ghost predicate Placed(db: Db) {
    KeysUnique(db.allocations) && forall i :: 0 <= i < |db.allocations| ==> AllocationOk(db, db.allocations[i])
  }

  ghost predicate Counted(db: Db) {
    && (forall t :: t in db.tenants ==> db.tenants[t].activeCount == ActiveOf(db.allocations, t))
    && (forall r :: r in db.runners ==> db.runners[r].reservedSlots == SlotsOn(db.allocations, r))
  }

  ghost predicate Within(db: Db) {
    && (forall t :: t in db.tenants ==> db.tenants[t].activeCount <= db.tenants[t].maxActive)
    && (forall r :: r in db.runners ==> db.runners[r].reservedSlots <= db.runners[r].maxSlots)
  }

  /** A run once bound to a runner stays bound to it. */
  ghost predicate Sticky(db: Db, v: Db) {
    forall k :: k in db.runs ==> k in v.runs && (db.runs[k].runner.Some? ==> v.runs[k].runner == db.runs[k].runner)
  }

  ghost predicate Inv(db: Db) { Placed(db) && Counted(db) && Within(db) }

  // ----- releasing ------------------------------------------------------------------------------------

  /** `db` may hold a slot for `key` that its status no longer allows. */
  ghost predicate PlacedBut(db: Db, key: Key) {
    && KeysUnique(db.allocations)
    && (forall i :: 0 <= i < |db.allocations| && db.allocations[i].key != key ==> AllocationOk(db, db.allocations[i]))
    && (forall i :: 0 <= i < |db.allocations| && db.allocations[i].key == key ==>
          var a := db.allocations[i];
          a.slots == 1 && key in db.runs && db.runs[key].runner == Some(a.runner) && key.tenant in db.tenants && a.runner in db.runners)
  }

  lemma ReleaseInv(db: Db, key: Key)
    requires PlacedBut(db, key) && Counted(db) && Within(db)
    ensures Inv(Release(db, key)) && Release(db, key).runs == db.runs
  {
    var i, v := Find(db.allocations, key), Release(db, key);
    if Allocated(db, key) {
      var a := db.allocations[i];
      forall t, r ensures ActiveOf(v.allocations, t) == ActiveOf(db.allocations, t) - (if t == key.tenant then 1 else 0)
                       && SlotsOn(v.allocations, r) == SlotsOn(db.allocations, r) - (if r == a.runner then 1 else 0) {
        UpdateCounts(db.allocations, i, a.(state := Released), t, r);
      }
      hide ActiveOf, SlotsOn, Find;
      assert Counted(v) && Within(v);
      ReleasePlaced(db, key);
    } else {
      NotHeld(db, key);
    }
  }

  lemma ReleasePlaced(db: Db, key: Key)
    requires PlacedBut(db, key) && Allocated(db, key)
    ensures Placed(Release(db, key))
  {
    hide Find;
    var i, v := Find(db.allocations, key), Release(db, key);
    assert forall j :: 0 <= j < |v.allocations| ==> j == i || v.allocations[j] == db.allocations[j];
    assert v.allocations[i] == db.allocations[i].(state := Released);
  }

  lemma NotHeld(db: Db, key: Key)
    requires PlacedBut(db, key) && !Allocated(db, key)
    ensures Placed(db)
  {
    forall i | 0 <= i < |db.allocations| ensures AllocationOk(db, db.allocations[i]) {
      if db.allocations[i].key == key {
        FindAt(db.allocations, i);
      }
    }
  }

  lemma FindAt(allocations: seq<Allocation>, i: nat)
    requires KeysUnique(allocations) && i < |allocations|
    ensures Find(allocations, allocations[i].key) == i
  {}

  // ----- writing a run row ----------------------------------------------------------------------------

  function WithRow(db: Db, key: Key, row: RunRow): Db { db.(runs := db.runs[key := row]) }

  lemma RowPlaced(db: Db, key: Key, row: RunRow)
    requires Inv(db) && key in db.runs && row.runner == db.runs[key].runner
    ensures var v := WithRow(db, key, row); PlacedBut(v, key) && Counted(v) && Within(v) && Sticky(db, v)
  {
    hide ActiveOf, SlotsOn, GivesUpSlot;
    var v := WithRow(db, key, row);
    forall i | 0 <= i < |v.allocations| && v.allocations[i].key != key ensures AllocationOk(v, v.allocations[i]) {
      assert AllocationOk(db, db.allocations[i]);
    }
    forall i | 0 <= i < |v.allocations| && v.allocations[i].key == key
      ensures var a := v.allocations[i];
        a.slots == 1 && key in v.runs && v.runs[key].runner == Some(a.runner) && key.tenant in v.tenants && a.runner in v.runners {
      assert AllocationOk(db, db.allocations[i]);
    }
  }

  lemma RowInv(db: Db, key: Key, row: RunRow)
    requires Inv(db) && key in db.runs && row.runner == db.runs[key].runner
    requires !GivesUpSlot(row.state.status) || row.state.status == db.runs[key].state.status
    ensures Inv(WithRow(db, key, row)) && Sticky(db, WithRow(db, key, row))
  {
    hide ActiveOf, SlotsOn, GivesUpSlot;
    var v := WithRow(db, key, row);
    RowPlaced(db, key, row);
    forall i | 0 <= i < |v.allocations| ensures AllocationOk(v, v.allocations[i]) {
      assert AllocationOk(db, db.allocations[i]);
    }
  }

  lemma PersistInv(db: Db, key: Key, next: State, commands: seq<Command>, event: Event, clock: Instant)
    requires Inv(db) && key in db.runs && Persist(db, key, next, commands, event, clock).Success?
    ensures var v := Persist(db, key, next, commands, event, clock).value; Inv(v) && Sticky(db, v)
  {
    hide Inv, PlacedBut, Counted, Within, Release, GivesUpSlot;
    if db.runs[key].state.version != next.version {
      var row := db.runs[key].(state := next, commands := commands);
      RowPlaced(db, key, row);
      if GivesUpSlot(next.status) {
        ReleaseInv(WithRow(db, key, row), key);
      } else {
        RowInv(db, key, row);
      }
    }
  }

  // ----- claiming -------------------------------------------------------------------------------------

  /** A held allocation is taken over in place: no counter moves. */
  lemma TakeoverInv(db: Db, c: ClaimRequest, epoch: nat)
    requires Inv(db) && c.key in db.runs && Allocated(db, c.key) && Eligible(db, c)
    ensures var v := Place(db, c, epoch); Inv(v) && Sticky(db, v)
  {
    var i, v := Find(db.allocations, c.key), Place(db, c, epoch);
    var a := db.allocations[i];
    assert AllocationOk(db, a);
    forall t, r ensures ActiveOf(v.allocations, t) == ActiveOf(db.allocations, t) && SlotsOn(v.allocations, r) == SlotsOn(db.allocations, r) {
      UpdateCounts(db.allocations, i, a.(epoch := epoch, state := Reserved), t, r);
    }
    hide ActiveOf, SlotsOn, Find, GivesUpSlot;
    assert v.runs == db.runs by {
      assert db.runs[c.key].(runner := Some(c.runner)) == db.runs[c.key];
    }
    forall j | 0 <= j < |v.allocations| ensures AllocationOk(v, v.allocations[j]) {
      assert AllocationOk(db, db.allocations[j]);
    }
  }

  /** A fresh or released allocation takes one slot on the runner the row ends up on. */
  lemma PlacementInv(db: Db, c: ClaimRequest, epoch: nat, now: Instant)
    requires Inv(db) && !Allocated(db, c.key) && Candidate(db, c, now) && Eligible(db, c)
    ensures var v := Place(db, c, epoch); Inv(v) && Sticky(db, v)
  {
    hide ActiveOf, SlotsOn, Find, Upsert, Placed, Sticky;
    var v := Place(db, c, epoch);
    forall t, r ensures ActiveOf(v.allocations, t) == ActiveOf(db.allocations, t) + (if t == c.key.tenant then 1 else 0)
                     && SlotsOn(v.allocations, r) == SlotsOn(db.allocations, r) + (if r == c.runner then 1 else 0) {
      PlacementCounts(db, c, epoch, t, r);
    }
    PlacementPlaced(db, c, epoch, now);
  }

  lemma PlacementCounts(db: Db, c: ClaimRequest, epoch: nat, tenant: string, runner: string)
    requires Placed(db) && c.key in db.runs && !Allocated(db, c.key) && Eligible(db, c)
    ensures var v := Upsert(db.allocations, c.key, c.runner, epoch);
      ActiveOf(v, tenant) == ActiveOf(db.allocations, tenant) + (if tenant == c.key.tenant then 1 else 0)
      && SlotsOn(v, runner) == SlotsOn(db.allocations, runner) + (if runner == c.runner then 1 else 0)
  {
    hide GivesUpSlot;
    var i := Find(db.allocations, c.key);
    if i < |db.allocations| {
      assert AllocationOk(db, db.allocations[i]);
      UpdateCounts(db.allocations, i, db.allocations[i].(epoch := epoch, state := Reserved), tenant, runner);
    } else {
      AppendCounts(db.allocations, Allocation(c.key, c.runner, epoch, Reserved, 1), tenant, runner);
    }
  }

  lemma RunnableHolds(status: RunStatus)
    requires Runnable(status)
    ensures !GivesUpSlot(status)
  {}

  lemma PlacementPlaced(db: Db, c: ClaimRequest, epoch: nat, now: Instant)
    requires Placed(db) && !Allocated(db, c.key) && Candidate(db, c, now) && Eligible(db, c)
    ensures Placed(Place(db, c, epoch)) && Sticky(db, Place(db, c, epoch))
  {
    hide GivesUpSlot, Runnable;
    RunnableHolds(db.runs[c.key].state.status);
    var i, v := Find(db.allocations, c.key), Place(db, c, epoch);
    forall j | 0 <= j < |v.allocations| ensures AllocationOk(v, v.allocations[j]) {
      if j < |db.allocations| {
        assert AllocationOk(db, db.allocations[j]);
      }
    }
  }

  lemma ClaimInv(db: Db, c: ClaimRequest, now: Instant)
    requires Inv(db)
    ensures Inv(Scheduler.Claim(db, c, now).0) && Sticky(db, Scheduler.Claim(db, c, now).0)
  {
    hide Inv, Place, Persist, Reducer.Transition, Eligible;
    if Candidate(db, c, now) {
      if Eligible(db, c) {
        var event := ClaimEvent(db.runs[c.key], c, now);
        var outcome := Reducer.Transition(db.runs[c.key].state, event);
        var u := Place(db, c, event.epoch);
        if Allocated(db, c.key) {
          TakeoverInv(db, c, event.epoch);
        } else {
          PlacementInv(db, c, event.epoch, now);
        }
        if outcome.Accepted? && Persist(u, c.key, outcome.next, outcome.commands, event, now).Success? {
          PersistInv(u, c.key, outcome.next, outcome.commands, event, now);
        }
      } else {
        RowInv(db, c.key, db.runs[c.key].(notBefore := now + SECOND));
      }
    }
  }

  // ----- every transaction, every run ------------------------------------------------------------------

  datatype Step =
    | AddTenant(tenant: string, maxActive: nat)
    | AddRunner(runner: string, maxSlots: nat)
    | Enable(runner: string, on: bool)
    | CreateRun(key: Key, limits: Limits, notBefore: Instant)
    | Hold(key: Key)
    | Claim(request: ClaimRequest, now: Instant)
    | Apply(key: Key, event: Event, evidenceReady: bool, now: Instant, clock: Instant)
    | Defer(key: Key, seen: State, notBefore: Instant, now: Instant)
    | Requeue(key: Key, copy: RunRow, hasWork: bool, now: Instant, clock: Instant)
    | Heartbeat(key: Key, owner: string, epoch: nat, duration: nat, now: Instant)

  function Do(db: Db, step: Step): Db {
    match step
    case AddTenant(t, n) => if t in db.tenants then db else db.(tenants := db.tenants[t := Tenant(0, n)])
    case AddRunner(r, n) => if r in db.runners then db else db.(runners := db.runners[r := Runner(0, n, true)])
    case Enable(r, on) => if r in db.runners then db.(runners := db.runners[r := db.runners[r].(enabled := on)]) else db
    case CreateRun(key, limits, notBefore) =>
      if key in db.runs || key.tenant !in db.tenants then db
      else WithRow(db, key, RunRow(NewState(key.tenant, key.run, limits), None, notBefore, false, []))
    case Hold(key) => if key in db.runs then WithRow(db, key, db.runs[key].(held := true)) else db
    case Claim(c, now) => Scheduler.Claim(db, c, now).0
    case Apply(key, event, ready, now, clock) => Scheduler.Apply(db, key, event, ready, now, clock).0
    case Defer(key, seen, notBefore, now) => Scheduler.Defer(db, key, seen, notBefore, now).0
    case Requeue(key, copy, hasWork, now, clock) => Scheduler.Requeue(db, key, copy, hasWork, now, clock).0
    case Heartbeat(key, owner, epoch, duration, now) => Scheduler.Heartbeat(db, key, owner, epoch, duration, now)
  }

  lemma ApplyInv(db: Db, key: Key, event: Event, ready: bool, now: Instant, clock: Instant)
    requires Inv(db)
    ensures var v := Scheduler.Apply(db, key, event, ready, now, clock).0; Inv(v) && Sticky(db, v)
  {
    hide Inv, Persist, Reducer.Transition;
    if key in db.runs {
      var outcome := Reducer.Transition(db.runs[key].state, event.(at := now));
      if outcome.Accepted? && Persist(db, key, outcome.next, outcome.commands, event.(at := now), clock).Success? {
        PersistInv(db, key, outcome.next, outcome.commands, event.(at := now), clock);
      }
    }
  }

  lemma FreeInv(db: Db, key: Key)
    requires Inv(db)
    ensures Inv(Release(db, key)) && Sticky(db, Release(db, key)) && Release(db, key).runs == db.runs
  {
    hide ActiveOf, SlotsOn, Find, GivesUpSlot, Release;
    assert forall i :: 0 <= i < |db.allocations| ==> AllocationOk(db, db.allocations[i]);
    assert PlacedBut(db, key);
    ReleaseInv(db, key);
  }

  lemma DeferInv(db: Db, key: Key, seen: State, notBefore: Instant, now: Instant)
    requires Inv(db)
    ensures var v := Scheduler.Defer(db, key, seen, notBefore, now).0; Inv(v) && Sticky(db, v)
  {
    hide Inv, Release, ProcessFree, GivesUpSlot;
    if key in db.runs {
      var row := db.runs[key];
      var yielded := row.(state := row.state.(lease := row.state.lease.(until := now)), notBefore := notBefore);
      RowInv(db, key, yielded);
      FreeInv(WithRow(db, key, yielded), key);
    }
  }

  lemma RequeueInv(db: Db, key: Key, copy: RunRow, hasWork: bool, now: Instant, clock: Instant)
    requires Inv(db)
    ensures var v := Scheduler.Requeue(db, key, copy, hasWork, now, clock).0; Inv(v) && Sticky(db, v)
  {
    hide Inv, Release, Persist, Reducer.Transition, GivesUpSlot;
    var v := Scheduler.Requeue(db, key, copy, hasWork, now, clock).0;
    if v != db {
      var event := BlankEvent(EventCapacityRejected, copy.state.version, copy.state.lease.owner, copy.state.lease.epoch, now).(notBefore := Some(now + SECOND));
      var outcome := Reducer.Transition(db.runs[key].state, event);
      PersistInv(db, key, outcome.next, outcome.commands, event, clock);
      var u := Persist(db, key, outcome.next, outcome.commands, event, clock).value;
      RowInv(u, key, u.runs[key].(notBefore := now + SECOND));
      FreeInv(Delay(u, key, now + SECOND), key);
    }
  }

  lemma HeartbeatInv(db: Db, key: Key, owner: string, epoch: nat, duration: nat, now: Instant)
    requires Inv(db)
    ensures var v := Scheduler.Heartbeat(db, key, owner, epoch, duration, now); Inv(v) && Sticky(db, v)
  {
    hide Inv, GivesUpSlot;
    if key in db.runs {
      var row := db.runs[key];
      RowInv(db, key, row.(state := row.state.(lease := row.state.lease.(until := now + duration))));
    }
  }

  /** Bookkeeping outside the scheduler: new tenants, runners and runs. */
  lemma AddTenantInv(db: Db, tenant: string, maxActive: nat)
    requires Inv(db) && tenant !in db.tenants
    ensures Inv(db.(tenants := db.tenants[tenant := Tenant(0, maxActive)]))
  {
    hide GivesUpSlot, ActiveOf, SlotsOn;
    assert forall i :: 0 <= i < |db.allocations| ==> AllocationOk(db, db.allocations[i]);
    NoneOfTenant(db.allocations, tenant);
  }

  lemma AddRunnerInv(db: Db, runner: string, maxSlots: nat)
    requires Inv(db) && runner !in db.runners
    ensures Inv(db.(runners := db.runners[runner := Runner(0, maxSlots, true)]))
  {
    hide GivesUpSlot, ActiveOf, SlotsOn;
    assert forall i :: 0 <= i < |db.allocations| ==> AllocationOk(db, db.allocations[i]);
    NoneOnRunner(db.allocations, runner);
  }

  lemma EnableInv(db: Db, runner: string, on: bool)
    requires Inv(db) && runner in db.runners
    ensures Inv(db.(runners := db.runners[runner := db.runners[runner].(enabled := on)]))
  {
    hide GivesUpSlot, ActiveOf, SlotsOn;
    assert forall i :: 0 <= i < |db.allocations| ==> AllocationOk(db, db.allocations[i]);
  }

  lemma CreateInv(db: Db, key: Key, row: RunRow)
    requires Inv(db) && key !in db.runs
    ensures Inv(WithRow(db, key, row))
  {
    hide GivesUpSlot, ActiveOf, SlotsOn;
    assert forall i :: 0 <= i < |db.allocations| ==> AllocationOk(db, db.allocations[i]);
  }

  lemma {:induction false} NoneOfTenant(allocations: seq<Allocation>, tenant: string)
    requires forall i :: 0 <= i < |allocations| ==> allocations[i].key.tenant != tenant
    ensures ActiveOf(allocations, tenant) == 0
  {
    if allocations != [] {
      NoneOfTenant(allocations[..|allocations| - 1], tenant);
    }
  }

  lemma {:induction false} NoneOnRunner(allocations: seq<Allocation>, runner: string)
    requires forall i :: 0 <= i < |allocations| ==> allocations[i].runner != runner
    ensures SlotsOn(allocations, runner) == 0
  {
    if allocations != [] {
      NoneOnRunner(allocations[..|allocations| - 1], runner);
    }
  }

  lemma DoInv(db: Db, step: Step)
    requires Inv(db)
    ensures Inv(Do(db, step)) && Sticky(db, Do(db, step))
  {
    hide Inv, Scheduler.Claim, Scheduler.Apply, Scheduler.Defer, Scheduler.Requeue, Scheduler.Heartbeat;
    match step
    case AddTenant(t, n) =>
      if t !in db.tenants {
        AddTenantInv(db, t, n);
      }
    case AddRunner(r, n) =>
      if r !in db.runners {
        AddRunnerInv(db, r, n);
      }
    case Enable(r, on) =>
      if r in db.runners {
        EnableInv(db, r, on);
      }
    case CreateRun(key, limits, notBefore) =>
      if key !in db.runs {
        CreateInv(db, key, RunRow(NewState(key.tenant, key.run, limits), None, notBefore, false, []));
      }
    case Hold(key) =>
      if key in db.runs {
        RowInv(db, key, db.runs[key].(held := true));
      }
    case Claim(c, now) => ClaimInv(db, c, now);
    case Apply(key, event, ready, now, clock) => ApplyInv(db, key, event, ready, now, clock);
    case Defer(key, seen, notBefore, now) => DeferInv(db, key, seen, notBefore, now);
    case Requeue(key, copy, hasWork, now, clock) => RequeueInv(db, key, copy, hasWork, now, clock);
    case Heartbeat(key, owner, epoch, duration, now) => HeartbeatInv(db, key, owner, epoch, duration, now);
  }

  const EMPTY := Db(map[], map[], map[], [])

  function Exec(db: Db, steps: seq<Step>): Db {
    if steps == [] then db else Do(Exec(db, steps[..|steps| - 1]), steps[|steps| - 1])
  }

  lemma {:induction false} ExecInv(db: Db, steps: seq<Step>)
    requires Inv(db)
    ensures Inv(Exec(db, steps)) && Sticky(db, Exec(db, steps))
  {
    hide Inv, Do;
    if steps != [] {
      ExecInv(db, steps[..|steps| - 1]);
      DoInv(Exec(db, steps[..|steps| - 1]), steps[|steps| - 1]);
    }
  }

  /** Tenant and runner counters always equal the allocation table and never pass
      their maxima, so no CHECK constraint of the tables can abort a transaction. */
  lemma CapacityIsConserved(steps: seq<Step>)
    ensures var db := Exec(EMPTY, steps);
      && (forall t :: t in db.tenants ==> 0 <= db.tenants[t].activeCount == ActiveOf(db.allocations, t) <= db.tenants[t].maxActive)
      && (forall r :: r in db.runners ==> 0 <= db.runners[r].reservedSlots == SlotsOn(db.allocations, r) <= db.runners[r].maxSlots)
  {
    hide Exec;
    var db := Exec(EMPTY, steps);
    ExecInv(EMPTY, steps);
    assert forall i :: 0 <= i < |db.allocations| ==> AllocationOk(db, db.allocations[i]);
    forall t ensures 0 <= ActiveOf(db.allocations, t) && 0 <= SlotsOn(db.allocations, t) {
      CountsNonNegative(db.allocations, t);
    }
    hide ActiveOf, SlotsOn, AllocationOk;
  }

  lemma {:induction false} CountsNonNegative(allocations: seq<Allocation>, name: string)
    requires forall i :: 0 <= i < |allocations| ==> allocations[i].slots == 1
    ensures 0 <= ActiveOf(allocations, name) && 0 <= SlotsOn(allocations, name)
  {
    if allocations != [] {
      CountsNonNegative(allocations[..|allocations| - 1], name);
    }
  }

  /** A run that has stopped or waits for approval holds no slot, in any reachable state. */
  lemma IdleRunsHoldNoSlot(steps: seq<Step>, key: Key)
    requires key in Exec(EMPTY, steps).runs && GivesUpSlot(Exec(EMPTY, steps).runs[key].state.status)
    ensures !Allocated(Exec(EMPTY, steps), key)
  {
    hide Exec, GivesUpSlot;
    var db := Exec(EMPTY, steps);
    ExecInv(EMPTY, steps);
    assert Find(db.allocations, key) < |db.allocations| ==> AllocationOk(db, db.allocations[Find(db.allocations, key)]);
  }

  /** Once bound, a run never moves to another runner. */
  lemma RunnerIsSticky(steps: seq<Step>, later: seq<Step>, key: Key)
    requires key in Exec(EMPTY, steps).runs && Exec(EMPTY, steps).runs[key].runner.Some?
    ensures var v := Exec(Exec(EMPTY, steps), later); key in v.runs && v.runs[key].runner == Exec(EMPTY, steps).runs[key].runner
  {
    hide Exec, Inv;
    EmptyInv();
    ExecInv(EMPTY, steps);
    ExecInv(Exec(EMPTY, steps), later);
  }

  lemma EmptyInv()
    ensures Inv(EMPTY)
  {}

  /** Conservation rests on stickiness: claiming a released allocation balances the
      runner's counter exactly when the row already sits on the chosen runner. */
  lemma ReclaimNeedsStickiness(db: Db, c: ClaimRequest, epoch: nat)
    requires Counted(db) && c.key in db.runs && Find(db.allocations, c.key) < |db.allocations| && !Allocated(db, c.key) && c.runner in db.runners
    requires db.allocations[Find(db.allocations, c.key)].slots == 1
    ensures var v := Place(db, c, epoch);
      v.runners[c.runner].reservedSlots == SlotsOn(v.allocations, c.runner)
      <==> db.allocations[Find(db.allocations, c.key)].runner == c.runner
  {
    var i := Find(db.allocations, c.key);
    UpdateCounts(db.allocations, i, db.allocations[i].(epoch := epoch, state := Reserved), c.key.tenant, c.runner);
  }
}
