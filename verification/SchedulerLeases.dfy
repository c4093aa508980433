/** Leases: each claim opens a new epoch, and only the current epoch's worker can
    advance a run (internal/persistence/scheduler.go, internal/runtime/reducer.go). */
module SchedulerLeases {
  import opened Domain
  import opened RunTypes
  import opened Progress
  import Reducer
  import Scheduler
  import opened SchedulerLedger

  lemma ClaimEpoch(s: State, e: Event)
    requires Reducer.Claim(s, e).Accepted?
    ensures var n := Reducer.Claim(s, e).next;
      e.lease == Some(n.lease) && s.lease.epoch < n.lease.epoch == e.epoch && !Scheduler.GivesUpSlot(n.status)
  {
    hide Blank;
  }

  /** Branches that go through the effect scheduler or resume a stage. */
  lemma EffectEpoch(s: State, e: Event)
    requires ValidProgressState(s) && Reducer.Branch(s, e).Accepted?
    requires e.kind == EventWorkspaceAdopted || e.kind == EventToolsValidated || e.kind == EventEffectCompleted || e.kind == EventReconciled
      || e.kind == EventContextBuilt || e.kind == EventApprovalDecided
    ensures Reducer.Branch(s, e).next.lease.epoch == s.lease.epoch
  {
    hide ValidProgressState, Reducer.BudgetReached, Reducer.BatchError, Reducer.ApprovalMatches, Blank, ValidId, ObserveProgress, Unsettled;
    if e.kind == EventContextBuilt && s.stepSeq > 0 {
      ObserveLease(s, e);
    }
  }

  /** Only a claim changes the epoch, and it raises it. */
  lemma BranchEpoch(s: State, e: Event)
    requires ValidProgressState(s) && Reducer.Branch(s, e).Accepted?
    ensures var n := Reducer.Branch(s, e).next;
      if e.kind == EventClaimed then e.lease == Some(n.lease) && s.lease.epoch < n.lease.epoch == e.epoch && !Scheduler.GivesUpSlot(n.status)
      else n.lease.epoch == s.lease.epoch
  {
    hide ValidProgressState, Reducer.BudgetReached, Reducer.Claim, Reducer.Adopt, Reducer.ToolsValidated, Reducer.EffectCompleted,
      Reducer.Reconciled, Reducer.ContextBuilt, Reducer.DecideApproval, Reducer.SettleEffect, Reducer.Schedule;
    if e.kind == EventClaimed {
      ClaimEpoch(s, e);
    } else if e.kind == EventWorkspaceAdopted || e.kind == EventToolsValidated || e.kind == EventEffectCompleted || e.kind == EventReconciled
      || e.kind == EventContextBuilt || e.kind == EventApprovalDecided {
      EffectEpoch(s, e);
    }
  }

  lemma ObserveLease(s: State, e: Event)
    requires ValidProgressState(s)
    ensures ObserveProgress(s, e).Success? ==> ObserveProgress(s, e).value.lease == s.lease
  {}

  lemma TransitionEpoch(s: State, e: Event)
    requires Reducer.Transition(s, e).Accepted?
    ensures var n := Reducer.Transition(s, e).next;
      if e.kind == EventClaimed then
        e.lease == Some(n.lease) && s.lease.epoch < n.lease.epoch == e.epoch && n.version != s.version && !Scheduler.GivesUpSlot(n.status)
      else n.lease.epoch == s.lease.epoch
  {
    SnapshotHasProgress(s);
    hide Reducer.Branch, Reducer.SnapshotError, Reducer.AdmissionError, ValidProgressState;
    if !Reducer.RepeatedCancel(s, e) {
      BranchEpoch(s, e);
    }
  }

  lemma SnapshotHasProgress(s: State)
    ensures Reducer.SnapshotError(s).None? ==> ValidProgressState(s)
  {}

  // ----- claims -----------------------------------------------------------------------------------

  predicate Claims(db: Scheduler.Db, step: Step, key: Scheduler.Key) {
    step.Claim? && step.request.key == key && Scheduler.Claim(db, step.request, step.now).1.Success?
  }

  function EpochOf(db: Scheduler.Db, key: Scheduler.Key): nat {
    if key in db.runs then db.runs[key].state.lease.epoch else 0
  }

  lemma ReleaseRuns(db: Scheduler.Db, key: Scheduler.Key)
    ensures Scheduler.Release(db, key).runs == db.runs
  {
    hide Scheduler.Find;
  }

  lemma PersistRow(db: Scheduler.Db, key: Scheduler.Key, next: State, commands: seq<Command>, event: Event, clock: Instant)
    requires key in db.runs && Scheduler.Persist(db, key, next, commands, event, clock).Success?
    ensures var v := Scheduler.Persist(db, key, next, commands, event, clock).value;
      && v.runs.Keys == db.runs.Keys && (forall k :: k in db.runs && k != key ==> v.runs[k] == db.runs[k])
      && v.runs[key] == (if db.runs[key].state.version == next.version then db.runs[key] else db.runs[key].(state := next, commands := commands))
      && (!Scheduler.GivesUpSlot(next.status) ==> v.allocations == db.allocations)
  {
    hide Scheduler.Release, Scheduler.GivesUpSlot, Scheduler.Fenced;
    if Scheduler.GivesUpSlot(next.status) {
      ReleaseRuns(db.(runs := db.runs[key := db.runs[key].(state := next, commands := commands)]), key);
    }
  }

  /** A successful claim takes an expired lease, opens the next epoch for its owner
      and leaves the run on an unreleased allocation of that epoch. */
  lemma ClaimGrantsNextEpoch(db: Scheduler.Db, c: Scheduler.ClaimRequest, now: Instant)
    requires Inv(db) && Scheduler.Claim(db, c, now).1.Success?
    ensures c.key in db.runs
    ensures var v, prior := Scheduler.Claim(db, c, now).0, db.runs[c.key].state.lease;
      && c.key in v.runs && prior.until <= now && v.runs[c.key].runner == Some(c.runner)
      && v.runs[c.key].state.lease == Lease(c.owner, prior.epoch + 1, now + c.duration)
      && Scheduler.Find(v.allocations, c.key) < |v.allocations|
      && v.allocations[Scheduler.Find(v.allocations, c.key)] == Scheduler.Allocation(c.key, c.runner, prior.epoch + 1, Scheduler.Reserved, 1)
  {
    hide Inv, Reducer.Transition, Scheduler.Persist, Scheduler.Place, Scheduler.Candidate, Scheduler.Eligible;
    CandidateFacts(db, c, now);
    var event := Scheduler.ClaimEvent(db.runs[c.key], c, now);
    var s := db.runs[c.key].state;
    var outcome := Reducer.Transition(s, event);
    TransitionEpoch(s, event);
    var u := Scheduler.Place(db, c, event.epoch);
    PlaceFacts(db, c, event.epoch);
    PersistRow(u, c.key, outcome.next, outcome.commands, event, now);
  }

  lemma CandidateFacts(db: Scheduler.Db, c: Scheduler.ClaimRequest, now: Instant)
    requires Scheduler.Candidate(db, c, now)
    ensures c.key in db.runs && db.runs[c.key].state.lease.until <= now
  {}

  /** The allocation row after the upsert: on the claimed runner, whatever it was. */
  lemma PlaceFacts(db: Scheduler.Db, c: Scheduler.ClaimRequest, epoch: nat)
    requires Inv(db) && c.key in db.runs && Scheduler.Eligible(db, c)
    ensures var u := Scheduler.Place(db, c, epoch);
      && u.runs == db.runs[c.key := db.runs[c.key].(runner := Some(c.runner))]
      && Scheduler.Find(u.allocations, c.key) < |u.allocations|
      && u.allocations[Scheduler.Find(u.allocations, c.key)] == Scheduler.Allocation(c.key, c.runner, epoch, Scheduler.Reserved, 1)
  {
    var i := Scheduler.Find(db.allocations, c.key);
    var u := Scheduler.Place(db, c, epoch);
    assert i < |db.allocations| ==> AllocationOk(db, db.allocations[i]);
    hide Counted, Within, Scheduler.GivesUpSlot;
    UpsertFind(db.allocations, c.key, c.runner, epoch);
  }

  lemma UpsertFind(allocations: seq<Scheduler.Allocation>, key: Scheduler.Key, runner: string, epoch: nat)
    ensures Scheduler.Find(Scheduler.Upsert(allocations, key, runner, epoch), key) == Scheduler.Find(allocations, key)
  {
    var i, v := Scheduler.Find(allocations, key), Scheduler.Upsert(allocations, key, runner, epoch);
    assert forall j :: 0 <= j < i ==> v[j] == allocations[j];
    assert v[i].key == key;
  }

  // ----- epochs over a run --------------------------------------------------------------------------

  ghost predicate SameEpoch(db: Scheduler.Db, v: Scheduler.Db, key: Scheduler.Key) {
    key in db.runs ==> key in v.runs && v.runs[key].state.lease.epoch == db.runs[key].state.lease.epoch
  }

  lemma ClaimElsewhere(db: Scheduler.Db, c: Scheduler.ClaimRequest, now: Instant, key: Scheduler.Key)
    requires key != c.key || Scheduler.Claim(db, c, now).1.Failure?
    ensures SameEpoch(db, Scheduler.Claim(db, c, now).0, key)
  {
    hide Reducer.Transition, Scheduler.Persist, Scheduler.Eligible, Scheduler.Upsert, Scheduler.Allocated;
    if Scheduler.Candidate(db, c, now) && Scheduler.Eligible(db, c) {
      var event := Scheduler.ClaimEvent(db.runs[c.key], c, now);
      var outcome := Reducer.Transition(db.runs[c.key].state, event);
      var u := Scheduler.Place(db, c, event.epoch);
      if outcome.Accepted? && Scheduler.Persist(u, c.key, outcome.next, outcome.commands, event, now).Success? {
        PersistRow(u, c.key, outcome.next, outcome.commands, event, now);
      }
    }
  }

  lemma ApplyEpoch(db: Scheduler.Db, key: Scheduler.Key, event: Event, ready: bool, now: Instant, clock: Instant, other: Scheduler.Key)
    ensures SameEpoch(db, Scheduler.Apply(db, key, event, ready, now, clock).0, other)
  {
    hide Reducer.Transition, Scheduler.Persist;
    if key in db.runs && event.kind != EventClaimed {
      var stamped := event.(at := now);
      var outcome := Reducer.Transition(db.runs[key].state, stamped);
      if outcome.Accepted? && Scheduler.Persist(db, key, outcome.next, outcome.commands, stamped, clock).Success? {
        TransitionEpoch(db.runs[key].state, stamped);
        PersistRow(db, key, outcome.next, outcome.commands, stamped, clock);
      }
    }
  }

  lemma RequeueEpoch(db: Scheduler.Db, key: Scheduler.Key, copy: Scheduler.RunRow, hasWork: bool, now: Instant, clock: Instant, other: Scheduler.Key)
    ensures SameEpoch(db, Scheduler.Requeue(db, key, copy, hasWork, now, clock).0, other)
  {
    hide Reducer.Transition, Scheduler.Persist, Scheduler.Release, Scheduler.Find;
    var v := Scheduler.Requeue(db, key, copy, hasWork, now, clock).0;
    if v != db {
      var event := Scheduler.BlankEvent(EventCapacityRejected, copy.state.version, copy.state.lease.owner, copy.state.lease.epoch, now)
        .(notBefore := Some(now + Scheduler.SECOND));
      var outcome := Reducer.Transition(db.runs[key].state, event);
      TransitionEpoch(db.runs[key].state, event);
      PersistRow(db, key, outcome.next, outcome.commands, event, clock);
      var u := Scheduler.Persist(db, key, outcome.next, outcome.commands, event, clock).value;
      ReleaseRuns(Scheduler.Delay(u, key, now + Scheduler.SECOND), key);
    }
  }

  lemma DeferEpoch(db: Scheduler.Db, key: Scheduler.Key, seen: State, notBefore: Instant, now: Instant, other: Scheduler.Key)
    ensures SameEpoch(db, Scheduler.Defer(db, key, seen, notBefore, now).0, other)
  {
    hide Scheduler.Release, Scheduler.ProcessFree;
    if key in db.runs {
      var row := db.runs[key];
      ReleaseRuns(db.(runs := db.runs[key := row.(state := row.state.(lease := row.state.lease.(until := now)), notBefore := notBefore)]), key);
    }
  }

  /** One transaction raises a run's epoch by one if it claims the run, else not at all. */
  lemma EpochStep(db: Scheduler.Db, step: Step, key: Scheduler.Key)
    requires Inv(db) && key in db.runs
    ensures key in Do(db, step).runs
    ensures EpochOf(Do(db, step), key) == EpochOf(db, key) + if Claims(db, step, key) then 1 else 0
  {
    hide Inv, Scheduler.Claim, Scheduler.Apply, Scheduler.Defer, Scheduler.Requeue;
    match step
    case Claim(c, now) =>
      if Claims(db, step, key) {
        ClaimGrantsNextEpoch(db, c, now);
      } else {
        ClaimElsewhere(db, c, now, key);
      }
    case Apply(k, event, ready, now, clock) => ApplyEpoch(db, k, event, ready, now, clock, key);
    case Defer(k, seen, notBefore, now) => DeferEpoch(db, k, seen, notBefore, now, key);
    case Requeue(k, copy, hasWork, now, clock) => RequeueEpoch(db, k, copy, hasWork, now, clock, key);
    case _ =>
  }

  function ClaimCount(db: Scheduler.Db, steps: seq<Step>, key: Scheduler.Key): nat {
    if steps == [] then 0
    else ClaimCount(db, steps[..|steps| - 1], key) + if Claims(Exec(db, steps[..|steps| - 1]), steps[|steps| - 1], key) then 1 else 0
  }

  /** A run's epoch counts its successful claims, so no two claims share an epoch and
      none is ever reused, whatever is deferred, requeued or taken over in between. */
  lemma {:induction false} EpochCountsClaims(db: Scheduler.Db, steps: seq<Step>, key: Scheduler.Key)
    requires Inv(db) && key in db.runs
    ensures key in Exec(db, steps).runs && EpochOf(Exec(db, steps), key) == EpochOf(db, key) + ClaimCount(db, steps, key)
  {
    hide Inv, Do, Claims, EpochOf;
    if steps != [] {
      var rest := steps[..|steps| - 1];
      EpochCountsClaims(db, rest, key);
      ExecInv(db, rest);
      EpochStep(Exec(db, rest), steps[|steps| - 1], key);
    }
  }

  /** An event of a worker without the current unexpired lease changes nothing. */
  lemma StaleEventIsFenced(db: Scheduler.Db, key: Scheduler.Key, event: Event, ready: bool, now: Instant, clock: Instant)
    requires key in db.runs && !Reducer.ControlEvent(event.kind)
    requires event.owner != db.runs[key].state.lease.owner || event.epoch != db.runs[key].state.lease.epoch
      || db.runs[key].state.lease.until <= now || db.runs[key].state.lease.until <= clock
    ensures Scheduler.Apply(db, key, event, ready, now, clock).1.Failure? && Scheduler.Apply(db, key, event, ready, now, clock).0 == db
  {
    hide Reducer.Branch, Reducer.SnapshotError, Scheduler.Release;
    if event.kind != EventClaimed {
      WorkerVersion(db.runs[key].state, event.(at := now));
    }
  }

  lemma WorkerVersion(s: State, e: Event)
    requires !Reducer.ControlEvent(e.kind)
    ensures Reducer.Transition(s, e).Accepted? ==> Reducer.Transition(s, e).next.version != s.version && Reducer.AdmissionError(s, e).None?
  {
    hide Reducer.Branch, Reducer.SnapshotError;
  }

  /** A worker's transaction on a run, made with a lease of `epoch`. */
  ghost predicate WorkerStep(step: Step, key: Scheduler.Key, epoch: nat) {
    || (step.Apply? && step.key == key && !Reducer.ControlEvent(step.event.kind) && step.event.epoch == epoch)
    || (step.Defer? && step.key == key && step.seen.lease.epoch == epoch)
    || (step.Requeue? && step.key == key && step.copy.state.lease.epoch == epoch)
    || (step.Heartbeat? && step.key == key && step.epoch == epoch)
  }

  lemma OtherEpochChangesNothing(db: Scheduler.Db, step: Step, key: Scheduler.Key, epoch: nat)
    requires key in db.runs && epoch != db.runs[key].state.lease.epoch && WorkerStep(step, key, epoch)
    ensures Do(db, step) == db
  {
    hide Reducer.Transition, Reducer.ControlEvent, Scheduler.Persist, Scheduler.Release, Scheduler.Find;
    if step.Apply? {
      StaleEventIsFenced(db, key, step.event, step.evidenceReady, step.now, step.clock);
    }
  }

  /** Once a run has been claimed again, however many transactions later, nothing its
      earlier workers still send changes any table: events, deferrals, capacity
      rejections and heartbeats of an older epoch are all refused. */
  lemma StaleWorkerIsFenced(db: Scheduler.Db, steps: seq<Step>, key: Scheduler.Key, step: Step, epoch: nat)
    requires Inv(db) && key in db.runs && ClaimCount(db, steps, key) > 0
    requires epoch <= EpochOf(db, key) && WorkerStep(step, key, epoch)
    ensures Do(Exec(db, steps), step) == Exec(db, steps)
  {
    hide Inv, Exec, Do, ClaimCount, WorkerStep;
    EpochCountsClaims(db, steps, key);
    OtherEpochChangesNothing(Exec(db, steps), step, key, epoch);
  }
}
