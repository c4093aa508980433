/** Every stored run row is a run of the reducer, so what holds over reducer runs holds
    of the database (internal/persistence/scheduler.go over internal/runtime/reducer.go). */
module SchedulerRuns {
  import opened Domain
  import opened RunTypes
  import Reducer
  import ReducerInvariant
  import opened ReducerRuns
  import ReducerWorkflow
  import Scheduler
  import SchedulerLedger
  import SchedulerLeases

  type Key = Scheduler.Key
  type Db = Scheduler.Db

  /** The commands on record after an input. */
  ghost function Asked(s: State, commands: seq<Command>, i: Input): seq<Command> {
    if i.Offer? && Advances(s, i.event) then Reducer.Transition(s, i.event).commands else commands
  }

  ghost predicate MovedBy(a: Scheduler.RunRow, b: Scheduler.RunRow, i: Input) {
    b.state == Next(a.state, i) && b.commands == Asked(a.state, a.commands, i)
  }

  /** How a row's snapshot and commands move in one transaction: not at all, or by one input. */
  ghost predicate RowMoves(db: Db, v: Db, key: Key) {
    key in db.runs ==>
      && key in v.runs
      && ((v.runs[key].state == db.runs[key].state && v.runs[key].commands == db.runs[key].commands)
          || exists i :: MovedBy(db.runs[key], v.runs[key], i))
  }

  lemma MovesBy(db: Db, v: Db, key: Key, i: Input)
    requires key in db.runs && key in v.runs && MovedBy(db.runs[key], v.runs[key], i)
    ensures RowMoves(db, v, key)
  {}

  /** A committed transition is the reducer's own. */
  lemma PersistMoves(db: Db, u: Db, key: Key, event: Event, clock: Instant, other: Key)
    requires key in db.runs && u.runs.Keys == db.runs.Keys && (forall k :: k in db.runs ==> u.runs[k].state == db.runs[k].state && u.runs[k].commands == db.runs[k].commands)
    requires Reducer.Transition(db.runs[key].state, event).Accepted?
    requires var o := Reducer.Transition(db.runs[key].state, event); Scheduler.Persist(u, key, o.next, o.commands, event, clock).Success?
    ensures var o := Reducer.Transition(db.runs[key].state, event);
      RowMoves(db, Scheduler.Persist(u, key, o.next, o.commands, event, clock).value, other)
  {
    hide Reducer.Transition, Scheduler.Persist;
    var o := Reducer.Transition(db.runs[key].state, event);
    SchedulerLeases.PersistRow(u, key, o.next, o.commands, event, clock);
    var v := Scheduler.Persist(u, key, o.next, o.commands, event, clock).value;
    if other == key && v.runs[key].state != db.runs[key].state {
      assert Next(db.runs[key].state, Offer(event)) == o.next;
      RepeatKeeps(db.runs[key].state, event);
      MovesBy(db, v, key, Offer(event));
    }
  }

  lemma RepeatKeeps(s: State, e: Event)
    ensures Reducer.RepeatedCancel(s, e) && Reducer.Transition(s, e).Accepted? ==> Reducer.Transition(s, e).next == s
  {
    hide Reducer.SnapshotError, Reducer.AdmissionError, Reducer.Branch;
  }

  lemma ClaimMoves(db: Db, c: Scheduler.ClaimRequest, now: Instant, key: Key)
    ensures RowMoves(db, Scheduler.Claim(db, c, now).0, key)
  {
    hide Reducer.Transition, Scheduler.Persist, Scheduler.Eligible, Scheduler.Upsert, Scheduler.Allocated;
    if Scheduler.Candidate(db, c, now) && Scheduler.Eligible(db, c) {
      var event := Scheduler.ClaimEvent(db.runs[c.key], c, now);
      var o := Reducer.Transition(db.runs[c.key].state, event);
      var u := Scheduler.Place(db, c, event.epoch);
      if o.Accepted? && Scheduler.Persist(u, c.key, o.next, o.commands, event, now).Success? {
        PersistMoves(db, u, c.key, event, now, key);
      }
    }
  }

  lemma ApplyMoves(db: Db, k: Key, event: Event, ready: bool, now: Instant, clock: Instant, key: Key)
    ensures RowMoves(db, Scheduler.Apply(db, k, event, ready, now, clock).0, key)
  {
    hide Reducer.Transition, Scheduler.Persist;
    if k in db.runs {
      var stamped := event.(at := now);
      var o := Reducer.Transition(db.runs[k].state, stamped);
      if o.Accepted? && Scheduler.Persist(db, k, o.next, o.commands, stamped, clock).Success? {
        PersistMoves(db, db, k, stamped, clock, key);
      }
    }
  }

  lemma SameRow(db: Db, u: Db, v: Db, key: Key)
    requires RowMoves(db, u, key) && key in db.runs && key in u.runs && key in v.runs
    requires v.runs[key].state == u.runs[key].state && v.runs[key].commands == u.runs[key].commands
    ensures RowMoves(db, v, key)
  {
    if u.runs[key].state != db.runs[key].state || u.runs[key].commands != db.runs[key].commands {
      var i :| MovedBy(db.runs[key], u.runs[key], i);
      MovesBy(db, v, key, i);
    }
  }

  lemma RequeueMoves(db: Db, k: Key, copy: Scheduler.RunRow, hasWork: bool, now: Instant, clock: Instant, key: Key)
    ensures RowMoves(db, Scheduler.Requeue(db, k, copy, hasWork, now, clock).0, key)
  {
    hide Reducer.Transition, Scheduler.Persist, Scheduler.Release, Scheduler.Find;
    var v := Scheduler.Requeue(db, k, copy, hasWork, now, clock).0;
    if v != db {
      var event := Scheduler.BlankEvent(EventCapacityRejected, copy.state.version, copy.state.lease.owner, copy.state.lease.epoch, now)
        .(notBefore := Some(now + Scheduler.SECOND));
      var o := Reducer.Transition(db.runs[k].state, event);
      PersistMoves(db, db, k, event, clock, key);
      SchedulerLeases.PersistRow(db, k, o.next, o.commands, event, clock);
      var u := Scheduler.Persist(db, k, o.next, o.commands, event, clock).value;
      SchedulerLeases.ReleaseRuns(Scheduler.Delay(u, k, now + Scheduler.SECOND), k);
      if key in db.runs {
        SameRow(db, u, v, key);
      }
    }
  }

  lemma DeferMoves(db: Db, k: Key, seen: State, notBefore: Instant, now: Instant, key: Key)
    ensures RowMoves(db, Scheduler.Defer(db, k, seen, notBefore, now).0, key)
  {
    hide Scheduler.Release, Scheduler.ProcessFree;
    if k in db.runs {
      var row := db.runs[k];
      SchedulerLeases.ReleaseRuns(
        db.(runs := db.runs[k := row.(state := row.state.(lease := row.state.lease.(until := now)), notBefore := notBefore)]), k);
      var v := Scheduler.Defer(db, k, seen, notBefore, now).0;
      if key == k && v != db && v.runs[key].state != row.state {
        MovesBy(db, v, key, LeaseClock(now));
      }
    }
  }

  lemma HeartbeatMoves(db: Db, k: Key, owner: string, epoch: nat, duration: nat, now: Instant, key: Key)
    ensures RowMoves(db, Scheduler.Heartbeat(db, k, owner, epoch, duration, now), key)
  {
    var v := Scheduler.Heartbeat(db, k, owner, epoch, duration, now);
    if v != db && key == k {
      MovesBy(db, v, key, LeaseClock(now + duration));
    }
  }

  lemma DoMoves(db: Db, step: SchedulerLedger.Step, key: Key)
    ensures RowMoves(db, SchedulerLedger.Do(db, step), key)
  {
    hide Scheduler.Claim, Scheduler.Apply, Scheduler.Defer, Scheduler.Requeue, Scheduler.Heartbeat, Next;
    match step
    case Claim(c, now) => ClaimMoves(db, c, now, key);
    case Apply(k, event, ready, now, clock) => ApplyMoves(db, k, event, ready, now, clock, key);
    case Defer(k, seen, notBefore, now) => DeferMoves(db, k, seen, notBefore, now, key);
    case Requeue(k, copy, hasWork, now, clock) => RequeueMoves(db, k, copy, hasWork, now, clock, key);
    case Heartbeat(k, owner, epoch, duration, now) => HeartbeatMoves(db, k, owner, epoch, duration, now, key);
    case _ =>
  }

  lemma NewRow(db: Db, step: SchedulerLedger.Step, key: Key)
    requires key !in db.runs && key in SchedulerLedger.Do(db, step).runs
    ensures step.CreateRun? && step.key == key && SchedulerLedger.Do(db, step).runs[key].state == NewState(key.tenant, key.run, step.limits)
      && SchedulerLedger.Do(db, step).runs[key].commands == []
  {
    hide Reducer.Transition, Scheduler.Persist, Scheduler.Release, Scheduler.Eligible, Scheduler.Upsert, Scheduler.Allocated, Scheduler.Find;
    if step.Claim? || step.Apply? || step.Requeue? || step.Defer? {
      OldRows(db, step, key);
    }
  }

  lemma OldRows(db: Db, step: SchedulerLedger.Step, key: Key)
    requires step.Claim? || step.Apply? || step.Requeue? || step.Defer?
    ensures SchedulerLedger.Do(db, step).runs.Keys == db.runs.Keys
  {
    hide Reducer.Transition, Scheduler.Persist, Scheduler.Release, Scheduler.Eligible, Scheduler.Upsert, Scheduler.Allocated, Scheduler.Find,
      Scheduler.ProcessFree;
    match step
    case Claim(c, now) =>
      if Scheduler.Candidate(db, c, now) && Scheduler.Eligible(db, c) {
        var event := Scheduler.ClaimEvent(db.runs[c.key], c, now);
        var o := Reducer.Transition(db.runs[c.key].state, event);
        var u := Scheduler.Place(db, c, event.epoch);
        if o.Accepted? && Scheduler.Persist(u, c.key, o.next, o.commands, event, now).Success? {
          SchedulerLeases.PersistRow(u, c.key, o.next, o.commands, event, now);
        }
      }
    case Apply(k, event, ready, now, clock) =>
      if k in db.runs {
        var stamped := event.(at := now);
        var o := Reducer.Transition(db.runs[k].state, stamped);
        if o.Accepted? && Scheduler.Persist(db, k, o.next, o.commands, stamped, clock).Success? {
          SchedulerLeases.PersistRow(db, k, o.next, o.commands, stamped, clock);
        }
      }
    case Requeue(k, copy, hasWork, now, clock) =>
      var v := Scheduler.Requeue(db, k, copy, hasWork, now, clock).0;
      if v != db {
        var event := Scheduler.BlankEvent(EventCapacityRejected, copy.state.version, copy.state.lease.owner, copy.state.lease.epoch, now)
          .(notBefore := Some(now + Scheduler.SECOND));
        var o := Reducer.Transition(db.runs[k].state, event);
        SchedulerLeases.PersistRow(db, k, o.next, o.commands, event, clock);
        var u := Scheduler.Persist(db, k, o.next, o.commands, event, clock).value;
        SchedulerLeases.ReleaseRuns(Scheduler.Delay(u, k, now + Scheduler.SECOND), k);
      }
    case Defer(k, seen, notBefore, now) =>
      if k in db.runs {
        var row := db.runs[k];
        SchedulerLeases.ReleaseRuns(
          db.(runs := db.runs[k := row.(state := row.state.(lease := row.state.lease.(until := now)), notBefore := notBefore)]), k);
      }
  }

  lemma RunAppend(s: State, inputs: seq<Input>, i: Input)
    ensures Run(s, inputs + [i]) == Next(Run(s, inputs), i)
  {
    hide Next;
    assert (inputs + [i])[..|inputs|] == inputs;
  }

  /** Every stored snapshot is what some inputs make of a new run of the same key. */
  lemma {:induction false} StoredRowIsRun(steps: seq<SchedulerLedger.Step>, key: Key) returns (limits: Limits, inputs: seq<Input>)
    requires key in SchedulerLedger.Exec(SchedulerLedger.EMPTY, steps).runs
    ensures SchedulerLedger.Exec(SchedulerLedger.EMPTY, steps).runs[key].state == Run(NewState(key.tenant, key.run, limits), inputs)
  {
    hide SchedulerLedger.Do, Next;
    limits, inputs := Limits(0, 0, 0, 0, 0), [];
    if steps != [] {
      var rest, step := steps[..|steps| - 1], steps[|steps| - 1];
      var db := SchedulerLedger.Exec(SchedulerLedger.EMPTY, rest);
      if key in db.runs {
        limits, inputs := StoredRowIsRun(rest, key);
        DoMoves(db, step, key);
        var s, t := db.runs[key].state, SchedulerLedger.Do(db, step).runs[key].state;
        if t != s {
          var i :| MovedBy(db.runs[key], SchedulerLedger.Do(db, step).runs[key], i);
          RunAppend(NewState(key.tenant, key.run, limits), inputs, i);
          inputs := inputs + [i];
        }
      } else {
        NewRow(db, step, key);
        limits, inputs := step.limits, [];
      }
    }
  }

  // ----- the reducer's guarantees, for stored rows -----------------------------------------------------

  lemma ExpiryIsNotValidated(s: State, until: Instant)
    ensures Reducer.SnapshotError(s.(lease := s.lease.(until := until))) == Reducer.SnapshotError(s)
  {
    hide Reducer.BatchError, Reducer.EffectError, ValidId;
  }

  /** A snapshot that fails validation accepts nothing, so it stays queued for ever. */
  lemma {:induction false} InvalidStaysQueued(s: State, inputs: seq<Input>)
    requires Reducer.SnapshotError(s).Some? && s.status == StatusQueued
    ensures Reducer.SnapshotError(Run(s, inputs)).Some? && Run(s, inputs).status == StatusQueued
  {
    hide Reducer.SnapshotError;
    if inputs != [] {
      var rest, i := inputs[..|inputs| - 1], inputs[|inputs| - 1];
      InvalidStaysQueued(s, rest);
      if i.LeaseClock? {
        ExpiryIsNotValidated(Run(s, rest), i.until);
      }
    }
  }

  /** Every stored snapshot that is not still an invalid new one satisfies the reducer's
      invariant, so its next event is never refused by the closing validation. */
  lemma StoredRowsAreSound(steps: seq<SchedulerLedger.Step>, key: Key)
    requires key in SchedulerLedger.Exec(SchedulerLedger.EMPTY, steps).runs
    ensures var s := SchedulerLedger.Exec(SchedulerLedger.EMPTY, steps).runs[key].state;
      ReducerInvariant.Inv(s) || (s.status == StatusQueued && Reducer.SnapshotError(s).Some?)
  {
    hide SchedulerLedger.Exec, Run, Reducer.SnapshotError, ReducerInvariant.Inv;
    var limits, inputs := StoredRowIsRun(steps, key);
    var s := NewState(key.tenant, key.run, limits);
    if Reducer.SnapshotError(s).None? {
      ReducerInvariant.NewStateInv(key.tenant, key.run, limits);
      RunInv(s, inputs);
    } else {
      InvalidStaysQueued(s, inputs);
    }
  }

  /** A stored row that left the queue stems from a valid new run. */
  lemma StoredRunIsFresh(steps: seq<SchedulerLedger.Step>, key: Key) returns (s: State, inputs: seq<Input>)
    requires key in SchedulerLedger.Exec(SchedulerLedger.EMPTY, steps).runs
    requires SchedulerLedger.Exec(SchedulerLedger.EMPTY, steps).runs[key].state.status != StatusQueued
    ensures Fresh(s) && SchedulerLedger.Exec(SchedulerLedger.EMPTY, steps).runs[key].state == Run(s, inputs)
  {
    hide SchedulerLedger.Exec, Run, Reducer.SnapshotError;
    var limits: Limits;
    limits, inputs := StoredRowIsRun(steps, key);
    s := NewState(key.tenant, key.run, limits);
    if Reducer.SnapshotError(s).Some? {
      InvalidStaysQueued(s, inputs);
    }
  }

  /** A run stored as completed passed a trusted verification at its final revision, with
      nothing settled since; every effect it executed that needed approval was granted. */
  lemma StoredCompletedIsVerified(steps: seq<SchedulerLedger.Step>, key: Key) returns (s: State, inputs: seq<Input>)
    requires key in SchedulerLedger.Exec(SchedulerLedger.EMPTY, steps).runs
    requires SchedulerLedger.Exec(SchedulerLedger.EMPTY, steps).runs[key].state.status == StatusCompleted
    ensures var stored := SchedulerLedger.Exec(SchedulerLedger.EMPTY, steps).runs[key].state;
      && Fresh(s) && stored == Run(s, inputs) && Verified(Trace(s, inputs), stored)
      && forall k :: 0 <= k < |Trace(s, inputs)| ==> ApprovedAt(Trace(s, inputs), k)
  {
    hide SchedulerLedger.Exec, Run, Fresh, Verified, ApprovedAt, Trace;
    s, inputs := StoredRunIsFresh(steps, key);
    CompletedIsVerified(s, inputs);
    ExecutionNeedsGrant(s, inputs);
  }

  // ----- the commands on record --------------------------------------------------------------------------

  /** A row's commands are what its snapshot needs done; a resumed run waits for a claim
      with nothing on record. */
  ghost predicate OnRecord(row: Scheduler.RunRow) {
    row.commands == ReducerWorkflow.Needs(row.state)
    || (row.state.status == StatusNeedsReconciliation && row.state.lease.owner == "" && row.commands == [])
  }

  lemma EntryOnRecord(s: State, e: Event)
    requires ReducerInvariant.Inv(s) && Advances(s, e)
    ensures var x := EntryFor(s, e);
      x.commands == ReducerWorkflow.Needs(x.after)
      || (x.after.status == StatusNeedsReconciliation && x.after.lease.owner == "" && x.commands == [])
  {
    hide ReducerInvariant.Inv, ReducerWorkflow.Needs, Reducer.Transition, ReducerWorkflow.Step;
    ReducerWorkflow.EntryMoves(s, e);
    if e.kind == EventResumeRequested {
      ReducerWorkflow.StepOf(s, e);
      ResumeFrees(EntryFor(s, e));
    }
  }

  lemma ResumeFrees(x: Entry)
    requires ReducerWorkflow.Step(x) && x.event.kind == EventResumeRequested
    ensures x.after.status == StatusNeedsReconciliation && x.after.lease.owner == "" && x.commands == []
  {
    hide ReducerInvariant.Inv;
  }

  lemma NextOnRecord(row: Scheduler.RunRow, i: Input, next: Scheduler.RunRow)
    requires OnRecord(row) && MovedBy(row, next, i)
    requires ReducerInvariant.Inv(row.state) || Reducer.SnapshotError(row.state).Some?
    ensures OnRecord(next)
  {
    hide ReducerInvariant.Inv, Reducer.SnapshotError, Reducer.AdmissionError, Reducer.Branch;
    if i.Offer? && Advances(row.state, i.event) {
      EntryOnRecord(row.state, i.event);
    } else if i.Offer? {
      RepeatKeeps(row.state, i.event);
    }
  }

  /** In every reachable database the commands on record are exactly what the stored
      snapshot needs: a worker that claims a run always finds the right one. */
  lemma {:induction false} StoredCommandsAreNeeded(steps: seq<SchedulerLedger.Step>, key: Key)
    requires key in SchedulerLedger.Exec(SchedulerLedger.EMPTY, steps).runs
    ensures OnRecord(SchedulerLedger.Exec(SchedulerLedger.EMPTY, steps).runs[key])
  {
    hide SchedulerLedger.Do, Next, OnRecord, Reducer.SnapshotError, ReducerInvariant.Inv, Asked;
    if steps != [] {
      var rest, step := steps[..|steps| - 1], steps[|steps| - 1];
      var db := SchedulerLedger.Exec(SchedulerLedger.EMPTY, rest);
      var v := SchedulerLedger.Do(db, step);
      if key in db.runs {
        StoredCommandsAreNeeded(rest, key);
        StoredRowsAreSound(rest, key);
        DoMoves(db, step, key);
        if v.runs[key].state == db.runs[key].state && v.runs[key].commands == db.runs[key].commands {
          SameOnRecord(db.runs[key], v.runs[key]);
        } else {
          var i :| MovedBy(db.runs[key], v.runs[key], i);
          NextOnRecord(db.runs[key], i, v.runs[key]);
        }
      } else {
        NewRow(db, step, key);
        NewOnRecord(v.runs[key], key, step.limits);
      }
    }
  }

  lemma SameOnRecord(a: Scheduler.RunRow, b: Scheduler.RunRow)
    requires OnRecord(a) && a.state == b.state && a.commands == b.commands
    ensures OnRecord(b)
  {}

  lemma NewOnRecord(row: Scheduler.RunRow, key: Key, limits: Limits)
    requires row.state == NewState(key.tenant, key.run, limits) && row.commands == []
    ensures OnRecord(row)
  {}
}
