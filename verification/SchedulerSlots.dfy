/** When a run takes its slot and when it gives it back, over every sequence of
    transactions (internal/persistence/scheduler.go, execution.go, capacity.go). */
module SchedulerSlots {
  import opened Domain
  import opened RunTypes
  import Reducer
  import ReducerInvariant
  import ReducerRuns
  import ReducerRoutes
  import ReducerWorkflow
  import opened Scheduler
  import opened SchedulerLedger
  import SchedulerLeases
  import SchedulerRuns

  /** Some allocation of the run is not released. */
  ghost predicate Holds(db: Db, key: Key) {
    exists i :: 0 <= i < |db.allocations| && db.allocations[i].key == key && db.allocations[i].state != Released
  }

  lemma HoldsIff(db: Db, key: Key)
    requires KeysUnique(db.allocations)
    ensures Holds(db, key) <==> Allocated(db, key)
  {
    if Holds(db, key) {
      var i :| 0 <= i < |db.allocations| && db.allocations[i].key == key && db.allocations[i].state != Released;
      FindAt(db.allocations, i);
    }
  }

  lemma SameAllocations(a: Db, b: Db, key: Key)
    requires a.allocations == b.allocations
    ensures Holds(a, key) == Holds(b, key)
  {}

  lemma ReleaseSlot(db: Db, k: Key, key: Key)
    requires KeysUnique(db.allocations)
    ensures Holds(Release(db, k), key) <==> Holds(db, key) && key != k
  {
    hide Find;
    var v, i := Release(db, k), Find(db.allocations, k);
    HoldsIff(db, k);
    if Allocated(db, k) {
      assert v.allocations == db.allocations[i := db.allocations[i].(state := Released)];
      if Holds(db, key) && key != k {
        var j :| 0 <= j < |db.allocations| && db.allocations[j].key == key && db.allocations[j].state != Released;
        assert v.allocations[j] == db.allocations[j];
      }
      if Holds(v, key) {
        var j :| 0 <= j < |v.allocations| && v.allocations[j].key == key && v.allocations[j].state != Released;
        assert j != i && db.allocations[j] == v.allocations[j];
        assert db.allocations[j].key != db.allocations[i].key;
      }
    }
  }

  lemma PersistSlot(db: Db, k: Key, next: State, commands: seq<Command>, event: Event, clock: Instant, key: Key)
    requires KeysUnique(db.allocations) && k in db.runs && Persist(db, k, next, commands, event, clock).Success?
    ensures var v := Persist(db, k, next, commands, event, clock).value;
      Holds(v, key) <==> Holds(db, key) && !(key == k && db.runs[k].state.version != next.version && GivesUpSlot(next.status))
  {
    hide Release, GivesUpSlot, Holds, Fenced;
    var written := db.(runs := db.runs[k := db.runs[k].(state := next, commands := commands)]);
    SameAllocations(db, written, key);
    ReleaseSlot(written, k, key);
  }

  // ----- each transaction ---------------------------------------------------------------------------

  lemma PlaceSlot(db: Db, c: ClaimRequest, epoch: nat, key: Key)
    requires c.key in db.runs
    ensures Holds(Place(db, c, epoch), key) <==> Holds(db, key) || key == c.key
  {
    hide Find;
    var u, i := Place(db, c, epoch), Find(db.allocations, c.key);
    if i < |db.allocations| {
      assert u.allocations == db.allocations[i := db.allocations[i].(epoch := epoch, state := Reserved)];
      assert u.allocations[i].key == c.key && u.allocations[i].state == Reserved;
      assert forall j :: 0 <= j < |u.allocations| && j != i ==> u.allocations[j] == db.allocations[j];
    } else {
      assert u.allocations == db.allocations + [Allocation(c.key, c.runner, epoch, Reserved, 1)];
      assert u.allocations[|db.allocations|].key == c.key;
      assert forall j :: 0 <= j < |db.allocations| ==> u.allocations[j] == db.allocations[j];
    }
    if Holds(db, key) {
      var j :| 0 <= j < |db.allocations| && db.allocations[j].key == key && db.allocations[j].state != Released;
      assert u.allocations[j].key == key && u.allocations[j].state != Released;
    }
  }

  lemma ClaimSlot(db: Db, c: ClaimRequest, now: Instant, key: Key)
    requires Inv(db)
    ensures Holds(Scheduler.Claim(db, c, now).0, key) <==> Holds(db, key) || (key == c.key && Scheduler.Claim(db, c, now).1.Success?)
  {
    hide Inv, Holds, Place, Persist, Reducer.Transition, Eligible;
    if Candidate(db, c, now) {
      if Eligible(db, c) {
        var event := ClaimEvent(db.runs[c.key], c, now);
        var o := Reducer.Transition(db.runs[c.key].state, event);
        var u := Place(db, c, event.epoch);
        PlacedInv(db, c, event.epoch, now);
        PlaceSlot(db, c, event.epoch, key);
        if o.Accepted? && Persist(u, c.key, o.next, o.commands, event, now).Success? {
          SchedulerLeases.TransitionEpoch(db.runs[c.key].state, event);
          PersistSlot(u, c.key, o.next, o.commands, event, now, key);
          SchedulerLeases.PersistRow(u, c.key, o.next, o.commands, event, now);
        }
      } else {
        SameAllocations(db, Postpone(db, c.key, now), key);
      }
    }
  }

  lemma PlacedInv(db: Db, c: ClaimRequest, epoch: nat, now: Instant)
    requires Inv(db) && Candidate(db, c, now) && Eligible(db, c)
    ensures KeysUnique(Place(db, c, epoch).allocations) && c.key in Place(db, c, epoch).runs
  {
    hide Inv, Place, Eligible, Allocated;
    if Allocated(db, c.key) {
      TakeoverInv(db, c, epoch);
    } else {
      PlacementInv(db, c, epoch, now);
    }
    UniqueOf(Place(db, c, epoch));
  }

  lemma UniqueOf(db: Db)
    requires Inv(db)
    ensures KeysUnique(db.allocations)
  {}

  /** The run has stopped for good or waits for a decision. */
  ghost predicate Idle(s: State) {
    || s.status == StatusCompleted || s.status == StatusFailed || s.status == StatusCancelled || s.status == StatusBudgetExhausted
    || s.status == StatusWaitingApproval
  }

  lemma HolderIsBusy(db: Db, key: Key)
    requires Inv(db) && Holds(db, key)
    ensures key in db.runs && !Idle(db.runs[key].state)
  {
    var i :| 0 <= i < |db.allocations| && db.allocations[i].key == key && db.allocations[i].state != Released;
    assert AllocationOk(db, db.allocations[i]);
  }

  lemma ApplySlot(db: Db, k: Key, event: Event, ready: bool, now: Instant, clock: Instant, key: Key)
    requires Inv(db)
    ensures var v := Scheduler.Apply(db, k, event, ready, now, clock).0;
      Holds(v, key) <==> Holds(db, key) && !(key == k && key in v.runs && Idle(v.runs[key].state))
  {
    hide Inv, Holds, Persist, Reducer.Transition;
    if Holds(db, key) {
      HolderIsBusy(db, key);
    }
    UniqueOf(db);
    if k in db.runs {
      var stamped := event.(at := now);
      var o := Reducer.Transition(db.runs[k].state, stamped);
      if o.Accepted? && Persist(db, k, o.next, o.commands, stamped, clock).Success? {
        PersistSlot(db, k, o.next, o.commands, stamped, clock, key);
        SchedulerLeases.PersistRow(db, k, o.next, o.commands, stamped, clock);
      }
    }
  }

  /** The worker's copy is current and its lease has not run out. */
  ghost predicate Current(db: Db, key: Key, seen: State, now: Instant) {
    && key.tenant in db.tenants && key in db.runs
    && var s := db.runs[key].state;
      s.version == seen.version && s.lease.owner == seen.lease.owner && s.lease.epoch == seen.lease.epoch && now < s.lease.until
  }

  /** Between effects with nothing in flight and no stop asked for, at the model or
      context stage: no process of the run can be running. */
  ghost predicate NoProcess(s: State) {
    && s.status == StatusRunning && s.stopTarget == NoStatus && s.pendingEffect.None?
    && (s.stage == StageModel || s.stage == StageBuildContext)
  }

  /** A deferral is accepted exactly for the current worker; it ends the lease now, delays
      the run, touches nothing else of any row, and gives the slot back exactly when no
      process can be running. */
  lemma DeferSlot(db: Db, k: Key, seen: State, notBefore: Instant, now: Instant, key: Key)
    requires Inv(db)
    ensures var (v, answer) := Scheduler.Defer(db, k, seen, notBefore, now);
      && (answer.Success? <==> Current(db, k, seen, now)) && (answer.Failure? ==> v == db)
      && (answer.Success? ==>
            v.runs == db.runs[k := db.runs[k].(state := db.runs[k].state.(lease := Lease(seen.lease.owner, seen.lease.epoch, now)), notBefore := notBefore)])
      && (Holds(v, key) <==> Holds(db, key) && !(key == k && Current(db, k, seen, now) && NoProcess(seen)))
  {
    hide Inv, Holds, Release;
    UniqueOf(db);
    if Current(db, k, seen, now) {
      var row := db.runs[k];
      var yielded := db.(runs := db.runs[k := row.(state := row.state.(lease := row.state.lease.(until := now)), notBefore := notBefore)]);
      SameAllocations(db, yielded, key);
      ReleaseSlot(yielded, k, key);
      SchedulerLeases.ReleaseRuns(yielded, k);
    }
  }

  lemma RequeueSlot(db: Db, k: Key, copy: RunRow, hasWork: bool, now: Instant, clock: Instant, key: Key)
    requires Inv(db)
    ensures var (v, answer) := Scheduler.Requeue(db, k, copy, hasWork, now, clock);
      Holds(v, key) <==> Holds(db, key) && !(key == k && answer.Success?)
  {
    hide Inv, Holds, Persist, Release, Reducer.Transition, Find;
    UniqueOf(db);
    var (v, answer) := Scheduler.Requeue(db, k, copy, hasWork, now, clock);
    if answer.Success? {
      var event := BlankEvent(EventCapacityRejected, copy.state.version, copy.state.lease.owner, copy.state.lease.epoch, now)
        .(notBefore := Some(now + SECOND));
      var o := Reducer.Transition(db.runs[k].state, event);
      PersistInv(db, k, o.next, o.commands, event, clock);
      PersistSlot(db, k, o.next, o.commands, event, clock, key);
      SchedulerLeases.PersistRow(db, k, o.next, o.commands, event, clock);
      var u := Persist(db, k, o.next, o.commands, event, clock).value;
      UniqueOf(u);
      var delayed := Delay(u, k, now + SECOND);
      SameAllocations(u, delayed, key);
      ReleaseSlot(delayed, k, key);
    }
  }

  // ----- every run -----------------------------------------------------------------------------------------

  /** The transactions that give a run's slot back: an event that stops it or makes it
      wait, the deferral of a run with no process, and a capacity rejection. */
  ghost predicate GivesBack(db: Db, step: Step, key: Key) {
    match step
    case Apply(k, _, _, _, _) => k == key && key in Do(db, step).runs && Idle(Do(db, step).runs[key].state)
    case Defer(k, seen, _, now) => k == key && Current(db, key, seen, now) && NoProcess(seen)
    case Requeue(k, copy, hasWork, now, clock) => k == key && Scheduler.Requeue(db, k, copy, hasWork, now, clock).1.Success?
    case _ => false
  }

  /** After any transaction of any run of the scheduler, a run holds a slot exactly when
      this transaction claimed it, or it held one and this did not give it back. */
  lemma SlotMoves(steps: seq<Step>, step: Step, key: Key)
    ensures var db := Exec(EMPTY, steps);
      Holds(Do(db, step), key) <==> SchedulerLeases.Claims(db, step, key) || (Holds(db, key) && !GivesBack(db, step, key))
  {
    hide Inv, Exec, Holds, Scheduler.Claim, Scheduler.Apply, Scheduler.Defer, Scheduler.Requeue, Scheduler.Heartbeat, Current, NoProcess, Idle;
    var db := Exec(EMPTY, steps);
    EmptyInv();
    ExecInv(EMPTY, steps);
    match step
    case Claim(c, now) => ClaimSlot(db, c, now, key);
    case Apply(k, event, ready, now, clock) => ApplySlot(db, k, event, ready, now, clock, key);
    case Defer(k, seen, notBefore, now) => DeferSlot(db, k, seen, notBefore, now, key);
    case Requeue(k, copy, hasWork, now, clock) => RequeueSlot(db, k, copy, hasWork, now, clock, key);
    case Heartbeat(k, owner, epoch, duration, now) => HeartbeatSlot(db, k, owner, epoch, duration, now, key);
    case _ => SameAllocations(db, Do(db, step), key);
  }

  /** A heartbeat moves the lease of its owner in an unexpired epoch to `duration` from
      now, and nothing else; without it nothing happens. */
  lemma HeartbeatSlot(db: Db, k: Key, owner: string, epoch: nat, duration: nat, now: Instant, key: Key)
    ensures var v := Scheduler.Heartbeat(db, k, owner, epoch, duration, now);
      && Holds(v, key) == Holds(db, key) && (k !in db.runs ==> v == db)
      && (k in db.runs ==>
            var s := db.runs[k].state;
            if SECOND <= duration <= 300 * SECOND && s.lease.owner == owner && s.lease.epoch == epoch && now < s.lease.until
               && (s.status == StatusRunning || s.status == StatusCancelRequested || s.status == StatusNeedsReconciliation)
            then v == WithRow(db, k, db.runs[k].(state := s.(lease := Lease(owner, epoch, now + duration)))) else v == db)
  {
    hide Holds;
    SameAllocations(db, Scheduler.Heartbeat(db, k, owner, epoch, duration, now), key);
  }

  // ----- a deferral on the stored row ---------------------------------------------------------------------

  lemma NextVersion(s: State, i: ReducerRuns.Input)
    ensures var n := ReducerRuns.Next(s, i);
      n.version == s.version + 1 || n == s.(lease := s.lease.(until := n.lease.until))
  {
    hide Reducer.SnapshotError, Reducer.Branch, Reducer.AdmissionError;
  }

  /** A stored version determines its snapshot but for the expiry of the lease. */
  lemma {:induction false} VersionFixesRow(steps: seq<Step>, j: nat, key: Key)
    requires j <= |steps| && key in Exec(EMPTY, steps[..j]).runs
    ensures key in Exec(EMPTY, steps).runs
    ensures var s, t := Exec(EMPTY, steps[..j]).runs[key].state, Exec(EMPTY, steps).runs[key].state;
      s.version <= t.version && (s.version == t.version ==> t == s.(lease := s.lease.(until := t.lease.until)))
    decreases |steps|
  {
    hide Do, ReducerRuns.Next, SchedulerRuns.Asked;
    if j == |steps| {
      assert steps[..j] == steps;
    } else {
      var rest, step := steps[..|steps| - 1], steps[|steps| - 1];
      assert rest[..j] == steps[..j];
      VersionFixesRow(rest, j, key);
      var db := Exec(EMPTY, rest);
      SchedulerRuns.DoMoves(db, step, key);
      var t, u := db.runs[key].state, Do(db, step).runs[key].state;
      if u != t {
        var i :| SchedulerRuns.MovedBy(db.runs[key], Do(db, step).runs[key], i);
        NextVersion(t, i);
      }
    }
  }

  /** A worker that defers with a copy it read at any earlier point gives the slot of the
      run back exactly when the deferral is accepted and the row as now stored shows no
      stop, no pending effect and the model or context stage. */
  lemma DeferReleasesIff(steps: seq<Step>, j: nat, key: Key, notBefore: Instant, now: Instant)
    requires j <= |steps| && key in Exec(EMPTY, steps[..j]).runs
    ensures key in Exec(EMPTY, steps).runs
    ensures var db, seen := Exec(EMPTY, steps), Exec(EMPTY, steps[..j]).runs[key].state;
      var v := Do(db, Step.Defer(key, seen, notBefore, now));
      Holds(db, key) && !Holds(v, key) <==> Holds(db, key) && Current(db, key, seen, now) && NoProcess(db.runs[key].state)
  {
    hide Exec, Do, Holds, SchedulerLeases.Claims;
    VersionFixesRow(steps, j, key);
    SlotMoves(steps, Step.Defer(key, Exec(EMPTY, steps[..j]).runs[key].state, notBefore, now), key);
    NotAClaim(Exec(EMPTY, steps), Step.Defer(key, Exec(EMPTY, steps[..j]).runs[key].state, notBefore, now), key);
  }

  lemma NotAClaim(db: Db, step: Step, key: Key)
    requires !step.Claim?
    ensures !SchedulerLeases.Claims(db, step, key)
  {}

  // ----- which claims succeed -----------------------------------------------------------------------------

  /** A run that may be claimed: due, unleased, not held back, on a runner it is not
      barred from, with its slot still held or one free for its tenant and on the runner
      by the allocation table itself. */
  ghost predicate Claimable(db: Db, c: ClaimRequest, now: Instant) {
    && !Blank(c.owner) && SECOND <= c.duration <= 300 * SECOND && now != 0
    && c.key in db.runs && c.key.tenant in db.tenants && c.runner in db.runners
    && db.runners[c.runner].enabled && (c.preferred == "" || c.preferred == c.runner)
    && var row := db.runs[c.key];
      && !row.held && row.notBefore <= now && row.state.lease.until <= now && (row.runner == None || row.runner == Some(c.runner))
      && (row.state.status == StatusQueued || row.state.status == StatusRunning || row.state.status == StatusCancelRequested
          || row.state.status == StatusNeedsReconciliation)
      && (|| Holds(db, c.key)
          || (ActiveOf(db.allocations, c.key.tenant) < db.tenants[c.key.tenant].maxActive
              && SlotsOn(db.allocations, c.runner) < db.runners[c.runner].maxSlots))
      && Reducer.SnapshotError(row.state).None? && row.state.version < MAX_UINT64 && row.state.lease.epoch < MAX_UINT64
  }

  lemma ReducerTakesClaim(s: State, e: Event)
    requires ReducerInvariant.Inv(s) && e.kind == EventClaimed && e.expectedVersion == s.version && e.lease.Some? && e.cost == 0
    requires e.lease.value.owner == e.owner && e.lease.value.epoch == e.epoch && e.at < e.lease.value.until && s.lease.until <= e.at
    requires Runnable(s.status)
    ensures Reducer.Transition(s, e).Accepted? <==> !Blank(e.owner) && e.at != 0 && s.version < MAX_UINT64 && s.lease.epoch < e.epoch
  {
    hide Blank, ReducerInvariant.Inv, ReducerInvariant.Sound, Reducer.SnapshotError, Reducer.Transition, Reducer.AdmissionError, ReducerRoutes.Route;
    ReducerWorkflow.SoundOf(s);
    ReducerInvariant.SoundIsValid(s);
    ReducerRoutes.StepRoutes(s, e);
    ReducerRoutes.AdmissionMeans(s, e);
    ReadyToClaim(s);
    hide ReducerRoutes.FrameFits;
  }

  lemma ReadyToClaim(s: State)
    requires ReducerInvariant.Inv(s) && Runnable(s.status)
    ensures s.workspaceRevision != 0 || (s.stage == StageInitialize && s.pendingEffect.None?)
  {}

  lemma CandidateIff(db: Db, c: ClaimRequest, now: Instant)
    requires Inv(db)
    ensures (!Blank(c.owner) && SECOND <= c.duration <= 300 * SECOND && Candidate(db, c, now) && Eligible(db, c)
             && now != 0 && Reducer.SnapshotError(db.runs[c.key].state).None? && db.runs[c.key].state.version < MAX_UINT64
             && db.runs[c.key].state.lease.epoch < MAX_UINT64)
            <==> Claimable(db, c, now)
  {
    hide Blank, Reducer.SnapshotError, ActiveOf, SlotsOn, Holds, Find;
    HoldsIff(db, c.key);
    var i := Find(db.allocations, c.key);
    assert i < |db.allocations| ==> AllocationOk(db, db.allocations[i]);
  }

  /** In every reachable database a claim succeeds exactly when its run is claimable. */
  lemma ClaimSucceedsIff(steps: seq<Step>, c: ClaimRequest, now: Instant)
    ensures Scheduler.Claim(Exec(EMPTY, steps), c, now).1.Success? <==> Claimable(Exec(EMPTY, steps), c, now)
  {
    hide Blank, Inv, Exec, Claimable, Candidate, Eligible, Reducer.SnapshotError, Reducer.Transition, Place, Persist, ReducerInvariant.Inv;
    var db := Exec(EMPTY, steps);
    EmptyInv();
    ExecInv(EMPTY, steps);
    CandidateIff(db, c, now);
    BlankOwner(c.owner);
    if Candidate(db, c, now) {
      CandidateRow(db, c, now);
    }
    if c.owner != "" && SECOND <= c.duration <= 300 * SECOND && Candidate(db, c, now) && Eligible(db, c) {
      var event := ClaimEvent(db.runs[c.key], c, now);
      var s := db.runs[c.key].state;
      var o := Reducer.Transition(s, event);
      SchedulerRuns.StoredRowsAreSound(steps, c.key);
      if Reducer.SnapshotError(s).Some? {
        InvalidRejects(s, event);
      } else {
        ReducerTakesClaim(s, event);
        NextEpoch(s.lease.epoch);
      }
      if o.Accepted? {
        ClaimPersists(db, c, event, o.next, o.commands, now);
      }
    }
  }

  lemma BlankOwner(owner: string)
    ensures !Blank(owner) ==> owner != ""
  {}

  lemma NextEpoch(epoch: nat)
    requires epoch <= MAX_UINT64
    ensures epoch < (epoch + 1) % (MAX_UINT64 + 1) <==> epoch < MAX_UINT64
  {}

  lemma InvalidRejects(s: State, e: Event)
    requires Reducer.SnapshotError(s).Some?
    ensures !Reducer.Transition(s, e).Accepted?
  {}

  lemma CandidateRow(db: Db, c: ClaimRequest, now: Instant)
    requires Candidate(db, c, now)
    ensures c.key in db.runs && db.runs[c.key].state.lease.until <= now && Runnable(db.runs[c.key].state.status)
  {}

  lemma ClaimPersists(db: Db, c: ClaimRequest, event: Event, next: State, commands: seq<Command>, now: Instant)
    requires c.key in db.runs && event.kind == EventClaimed
    ensures var u := Place(db, c, event.epoch);
      && c.key in u.runs && Persist(u, c.key, next, commands, event, now).Success?
      && c.key in Persist(u, c.key, next, commands, event, now).value.runs
  {
    hide Release, Allocated, Upsert;
    var u := Place(db, c, event.epoch);
    SchedulerLeases.PersistRow(u, c.key, next, commands, event, now);
  }

  // ----- which events are committed -----------------------------------------------------------------------

  /** What the reducer answers for a stored snapshot. */
  lemma StoredAccepts(steps: seq<Step>, key: Key, e: Event)
    requires key in Exec(EMPTY, steps).runs
    ensures var s := Exec(EMPTY, steps).runs[key].state;
      && (Reducer.Transition(s, e).Accepted?
          <==> Reducer.SnapshotError(s).None? && ReducerRoutes.Admissible(s, e) && (ReducerRoutes.Takes(s, e) || Reducer.RepeatedCancel(s, e)))
      && (Reducer.Transition(s, e).Accepted? ==>
            if Reducer.RepeatedCancel(s, e) then Reducer.Transition(s, e).next == s else Reducer.Transition(s, e).next.version == s.version + 1)
  {
    hide Exec, Reducer.SnapshotError, Reducer.Transition, Reducer.AdmissionError, ReducerRoutes.Admissible, ReducerRoutes.Takes, ReducerRoutes.Route,
      ReducerInvariant.Inv;
    var s := Exec(EMPTY, steps).runs[key].state;
    SchedulerRuns.StoredRowsAreSound(steps, key);
    if Reducer.SnapshotError(s).Some? {
      InvalidRejects(s, e);
    } else {
      ReducerRoutes.StepRoutes(s, e);
      ReducerRoutes.AdmissionMeans(s, e);
    }
  }

  /** In every reachable database an event is committed exactly when the run is there and
      not held back, its evidence is in place, the reducer takes it, and a worker's lease
      still runs when the row is written; the row then holds exactly the new snapshot and
      its commands, no other row changes, and a refusal changes nothing. */
  lemma ApplyAnswers(steps: seq<Step>, key: Key, event: Event, ready: bool, now: Instant, clock: Instant)
    ensures var db, e := Exec(EMPTY, steps), event.(at := now);
      var (v, answer) := Scheduler.Apply(db, key, event, ready, now, clock);
      && (answer.Success? <==>
            && event.kind != EventClaimed && event.kind != EventCapacityRejected
            && key.tenant in db.tenants && key in db.runs && !db.runs[key].held && ready
            && var s := db.runs[key].state;
              && Reducer.SnapshotError(s).None? && ReducerRoutes.Admissible(s, e)
              && (Reducer.RepeatedCancel(s, e)
                  || (ReducerRoutes.Takes(s, e)
                      && (clock < s.lease.until || e.kind == EventCancelRequested || e.kind == EventApprovalDecided || e.kind == EventResumeRequested))))
      && (answer.Failure? ==> v == db)
      && (answer.Success? ==>
            var o := Reducer.Transition(db.runs[key].state, e);
            && o.Accepted?
            && v.runs == if Reducer.RepeatedCancel(db.runs[key].state, e) then db.runs
                         else db.runs[key := db.runs[key].(state := o.next, commands := o.commands)])
  {
    hide Exec, Reducer.SnapshotError, Reducer.Transition, ReducerRoutes.Takes, Release, GivesUpSlot;
    var db, e := Exec(EMPTY, steps), event.(at := now);
    if key in db.runs && event.kind != EventClaimed {
      StoredAccepts(steps, key, e);
      var o := Reducer.Transition(db.runs[key].state, e);
      if o.Accepted? {
        SchedulerLeases.ReleaseRuns(db.(runs := db.runs[key := db.runs[key].(state := o.next, commands := o.commands)]), key);
      }
    }
  }

  /** A capacity rejection succeeds exactly for the current worker of a run that has only
      been told to initialize and holds a reserved slot of this epoch with nothing running
      on it; it queues the run again, without an owner, a second from now. */
  lemma RequeueAnswers(steps: seq<Step>, key: Key, copy: RunRow, hasWork: bool, now: Instant, clock: Instant)
    ensures var db := Exec(EMPTY, steps); var (v, answer) := Scheduler.Requeue(db, key, copy, hasWork, now, clock);
      && (answer.Failure? ==> v == db)
      && (answer.Success? ==>
            && key in db.runs && Current(db, key, copy.state, now) && Current(db, key, copy.state, clock) && !db.runs[key].held && !hasWork
            && db.runs[key].runner.Some? && db.runs[key].runner == copy.runner && db.runs[key].commands == [CommandInitializeWorkspace]
            && Holds(db, key) && v.runs.Keys == db.runs.Keys && (forall k :: k in db.runs && k != key ==> v.runs[k] == db.runs[k])
            && var a, b := db.runs[key], v.runs[key];
              && a.state.status == StatusRunning && a.state.stage == StageInitialize && a.state.version < MAX_UINT64
              && b == a.(state := a.state.(status := StatusQueued, lease := Lease("", a.state.lease.epoch, 0), version := a.state.version + 1),
                         commands := [], notBefore := now + SECOND))
  {
    hide Exec, Reducer.SnapshotError, Reducer.Transition, Persist, Release, Find, Holds, ReducerInvariant.Inv, Inv;
    var db := Exec(EMPTY, steps);
    var (v, answer) := Scheduler.Requeue(db, key, copy, hasWork, now, clock);
    if answer.Success? {
      EmptyInv();
      ExecInv(EMPTY, steps);
      UniqueOf(db);
      HoldsIff(db, key);
      var event := BlankEvent(EventCapacityRejected, copy.state.version, copy.state.lease.owner, copy.state.lease.epoch, now)
        .(notBefore := Some(now + SECOND));
      var s := db.runs[key].state;
      var o := Reducer.Transition(s, event);
      StoredAccepts(steps, key, event);
      RejectionRoutes(steps, key, event);
      PersistFenced(db, key, o.next, o.commands, event, clock);
      SchedulerLeases.PersistRow(db, key, o.next, o.commands, event, clock);
      var u := Persist(db, key, o.next, o.commands, event, clock).value;
      SchedulerLeases.ReleaseRuns(Delay(u, key, now + SECOND), key);
    }
  }

  lemma PersistFenced(db: Db, key: Key, next: State, commands: seq<Command>, event: Event, clock: Instant)
    requires key in db.runs && Persist(db, key, next, commands, event, clock).Success? && next.version != db.runs[key].state.version
    requires event.kind == EventCapacityRejected
    ensures clock < db.runs[key].state.lease.until
  {
    hide Release;
  }

  lemma RejectionRoutes(steps: seq<Step>, key: Key, e: Event)
    requires key in Exec(EMPTY, steps).runs && e.kind == EventCapacityRejected
    requires Reducer.Transition(Exec(EMPTY, steps).runs[key].state, e).Accepted?
    ensures var s := Exec(EMPTY, steps).runs[key].state; var o := Reducer.Transition(s, e);
      && s.status == StatusRunning && s.stage == StageInitialize && s.version < MAX_UINT64 && o.commands == []
      && o.next == s.(status := StatusQueued, lease := Lease("", s.lease.epoch, 0), version := s.version + 1)
  {
    hide Exec, Reducer.SnapshotError, Reducer.AdmissionError, ReducerInvariant.Inv;
  }
}
