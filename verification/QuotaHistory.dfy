/** What the rows and counters of the quota ledger record of the transactions that
    made them (internal/quota/store.go). */
module QuotaHistory {
  import opened Domain
  import opened Quota
  import opened QuotaLedger
  import opened QuotaRuns
  import opened QuotaProbes

  // ----- consecutive failures ------------------------------------------------------------------

  /** A success counts against the failures if it meets a closed breaker or comes from
      the probe. */
  ghost predicate Clears(db: Db, step: Step, group: string) {
    && FirstReport(db, step, group, Succeeded) && group in db.quotas
    && (db.quotas[group].breakerUntil.None? || db.quotas[group].probe == Some(step.key))
  }

  /** First failure reports of the group since the last success that counts. */
  ghost function Streak(steps: seq<Step>, group: string): nat {
    if steps == [] then 0
    else
      var rest, step := steps[..|steps| - 1], steps[|steps| - 1];
      var db := Exec(EMPTY, rest);
      if FirstReport(db, step, group, Failed) then Streak(rest, group) + 1
      else if Clears(db, step, group) then 0 else Streak(rest, group)
  }

  lemma EffectFailures(q: Snapshot, r: Reservation, now: Instant, action: Action)
    requires ActEffect(Rotate(q, now), r, now, action).Success?
    ensures var v := ActEffect(Rotate(q, now), r, now, action).value.q; var first := action.RecordOutcome? && r.outcome.None?;
      && (first ==> r.dispatchedAt.Some?) && v.threshold == q.threshold
      && v.failures ==
           if first && action.outcome == Failed then (if q.failures < q.threshold then q.failures + 1 else q.failures)
           else if first && action.outcome == Succeeded && (q.breakerUntil.None? || OwnsProbe(q, r)) then 0 else q.failures
  {}

  lemma MutateFailures(db: Db, key: Key, action: Action, now: Instant, group: string)
    requires group in db.quotas
    ensures var step, v, q := Step.Mutate(key, action, now), Quota.Mutate(db, key, action, now).0, db.quotas[group];
      && group in v.quotas && v.quotas[group].threshold == q.threshold
      && v.quotas[group].failures ==
           if FirstReport(db, step, group, Failed) then (if q.failures < q.threshold then q.failures + 1 else q.failures)
           else if Clears(db, step, group) then 0 else q.failures
  {
    hide Rotate, ActEffect, Find;
    var i := Find(db.rows, key);
    if i < |db.rows| && db.rows[i].request.group == group && ValidAction(action) {
      FirstReportAccepted(Rotate(db.quotas[group], now), db.rows[i], now, action);
      if ActEffect(Rotate(db.quotas[group], now), db.rows[i], now, action).Success? {
        EffectFailures(db.quotas[group], db.rows[i], now, action);
      }
    }
  }

  lemma SweepFailures(q: Snapshot, rows: seq<Reservation>, group: string, now: Instant)
    requires SweepQuota(Rotate(q, now), rows, group, now).Some?
    ensures var v := SweepQuota(Rotate(q, now), rows, group, now).value; v.failures == q.failures && v.threshold == q.threshold
  {
    hide ProbeOverdue, OverdueCount, Find;
  }

  /** Nothing but outcome reports moves the failure count. */
  lemma FailuresStep(db: Db, step: Step, group: string)
    requires group in db.quotas
    ensures group in Do(db, step).quotas
    ensures var q, v := db.quotas[group], Do(db, step).quotas[group];
      && (!step.Configure? ==> v.threshold == q.threshold)
      && v.failures ==
           if FirstReport(db, step, group, Failed) then (if q.failures < q.threshold then q.failures + 1 else q.failures)
           else if Clears(db, step, group) then 0 else q.failures
  {
    hide SweepQuota, SweepRows, Rotate, Find, Quota.Mutate, ValidRequest, OverdueCount;
    match step
    case Configure(c, now) =>
    case Reserve(r, now) =>
      if r.group == group && SweepQuota(Rotate(db.quotas[group], now), db.rows, group, now).Some? {
        SweepFailures(db.quotas[group], db.rows, group, now);
      }
    case Mutate(key, action, now) => MutateFailures(db, key, action, now, group);
    case Expire(g, now) =>
      if g == group && SweepQuota(Rotate(db.quotas[group], now), db.rows, group, now).Some? {
        SweepFailures(db.quotas[group], db.rows, group, now);
      }
  }

  /** No configuration changes the threshold of a group it already has. */
  ghost predicate ThresholdsFixed(steps: seq<Step>) {
    forall i :: 0 <= i < |steps| ==> FixesThreshold(Exec(EMPTY, steps[..i]), steps[i])
  }

  ghost predicate FixesThreshold(db: Db, step: Step) {
    step.Configure? && step.config.group in db.quotas ==> step.config.threshold == db.quotas[step.config.group].threshold
  }

  lemma ThresholdStays(db: Db, step: Step, group: string)
    requires group in db.quotas && FixesThreshold(db, step) && step.Configure?
    ensures group in Do(db, step).quotas && Do(db, step).quotas[group].threshold == db.quotas[group].threshold
  {}

  lemma NoReports(db: Db, step: Step, group: string)
    requires Inv(db) && group !in db.quotas
    ensures !FirstReport(db, step, group, Failed) && !Clears(db, step, group)
    ensures group in Do(db, step).quotas ==> Do(db, step).quotas[group].failures == 0 && Do(db, step).quotas[group].threshold > 0
  {
    hide SweepQuota, SweepRows, ActEffect, Rotate, ValidRequest, ValidAction, OverdueCount, Balanced, ProbeOk, KeysUnique, RowOk;
    if step.Mutate? && Find(db.rows, step.key) < |db.rows| {
      assert db.rows[Find(db.rows, step.key)].request.group in db.quotas;
    }
    hide Find;
  }

  /** While the threshold is fixed, the failure count is the number of first failure
      reports since the last success that counts, up to the threshold. */
  lemma {:induction false} FailuresAreTheStreak(steps: seq<Step>, group: string)
    requires ThresholdsFixed(steps)
    ensures var db := Exec(EMPTY, steps);
      if group in db.quotas then
        db.quotas[group].failures == (if Streak(steps, group) < db.quotas[group].threshold then Streak(steps, group) else db.quotas[group].threshold)
        && db.quotas[group].threshold > 0
      else Streak(steps, group) == 0
  {
    hide Inv, Do, FirstReport, Clears, FixesThreshold;
    if steps != [] {
      var rest, step := steps[..|steps| - 1], steps[|steps| - 1];
      var db := Exec(EMPTY, rest);
      assert forall i :: 0 <= i < |rest| ==> rest[..i] == steps[..i];
      FailuresAreTheStreak(rest, group);
      EmptyInv();
      ExecInv(EMPTY, rest);
      assert steps[..|rest|] == rest;
      if group in db.quotas {
        FailuresStep(db, step, group);
        if step.Configure? {
          ThresholdStays(db, step, group);
        }
      } else {
        NoReports(db, step, group);
      }
    }
  }

  /** A closed breaker opens exactly on the failure report that completes the streak. */
  lemma StreakOpensBreaker(steps: seq<Step>, step: Step, group: string)
    requires ThresholdsFixed(steps)
    requires var db := Exec(EMPTY, steps); group in db.quotas && db.quotas[group].breakerUntil.None?
    ensures var db := Exec(EMPTY, steps); var v := Do(db, step);
      && group in v.quotas
      && (v.quotas[group].breakerUntil.Some? <==>
            FirstReport(db, step, group, Failed) && Streak(steps, group) + 1 >= db.quotas[group].threshold)
  {
    hide Inv, Do, Exec, Streak;
    FailuresAreTheStreak(steps, group);
    BreakerOpensIff(steps, step, group);
  }

  // ----- which transactions commit, and when a window turns --------------------------------------

  /** The transaction commits changes to the group. */
  ghost predicate Touches(db: Db, step: Step, group: string) {
    match step
    case Configure(_, _) => false
    case Reserve(r, now) => r.group == group && !Quota.Reserve(db, r, now).1.Rejected?
    case Mutate(key, action, now) =>
      Find(db.rows, key) < |db.rows| && db.rows[Find(db.rows, key)].request.group == group && Quota.Mutate(db, key, action, now).1.Success?
    case Expire(g, now) => g == group && ExpireRequestSlots(db, g, now).1.Success?
  }

  /** A window turns exactly in the first transaction on its group at or after its end,
      and the next one lasts a whole window from there. */
  ghost predicate Turned(q: Snapshot, v: Snapshot, now: Instant, turns: bool) {
    && v.generation == (if turns then q.generation + 1 else q.generation)
    && v.windowEndsAt == (if turns then now + q.window else q.windowEndsAt)
  }

  lemma SweepTurns(q: Snapshot, rows: seq<Reservation>, group: string, now: Instant)
    requires SweepQuota(Rotate(q, now), rows, group, now).Some?
    ensures Turned(q, SweepQuota(Rotate(q, now), rows, group, now).value, now, q.windowEndsAt <= now)
  {
    hide ProbeOverdue, OverdueCount, Find;
  }

  lemma EffectTurns(q: Snapshot, r: Reservation, now: Instant, action: Action)
    requires ActEffect(Rotate(q, now), r, now, action).Success?
    ensures Turned(q, ActEffect(Rotate(q, now), r, now, action).value.q, now, q.windowEndsAt <= now)
  {}

  lemma WindowTurnsIff(db: Db, step: Step, group: string)
    requires Inv(db) && group in db.quotas
    ensures group in Do(db, step).quotas
    ensures Turned(db.quotas[group], Do(db, step).quotas[group], step.now, Touches(db, step, group) && db.quotas[group].windowEndsAt <= step.now)
  {
    hide Inv, SweepQuota, SweepRows, Rotate, Find, ActEffect, ValidRequest, ValidAction, OverdueCount, Fresh, DenialOf;
    match step
    case Configure(c, now) =>
    case Reserve(r, now) =>
      if r.group == group {
        SweepInv(db, group, now);
        SweepTurns(db.quotas[group], db.rows, group, now);
      }
    case Mutate(key, action, now) =>
      var i := Find(db.rows, key);
      if i < |db.rows| && db.rows[i].request.group == group && ActEffect(Rotate(db.quotas[group], now), db.rows[i], now, action).Success? {
        EffectTurns(db.quotas[group], db.rows[i], now, action);
      }
    case Expire(g, now) =>
      if g == group {
        SweepInv(db, group, now);
        SweepTurns(db.quotas[group], db.rows, group, now);
      }
  }

  /** Before its end a window never turns, whatever is configured meanwhile. */
  lemma {:induction false} WindowLasts(db: Db, later: seq<Step>, group: string)
    requires Inv(db) && group in db.quotas && forall i :: 0 <= i < |later| ==> later[i].now < db.quotas[group].windowEndsAt
    ensures group in Exec(db, later).quotas && Turned(db.quotas[group], Exec(db, later).quotas[group], 0, false)
  {
    hide Inv, Do, Touches;
    if later != [] {
      var rest := later[..|later| - 1];
      WindowLasts(db, rest, group);
      ExecInv(db, rest);
      WindowTurnsIff(Exec(db, rest), later[|later| - 1], group);
    }
  }

  // ----- what a row records ------------------------------------------------------------------------

  /** The action was accepted for this row. */
  ghost predicate Acted(db: Db, step: Step, r: Reservation) {
    step.Mutate? && step.key == r.request.key && Quota.Mutate(db, step.key, step.action, step.now).1.Success?
  }

  /** The row's slot is taken back because its deadline has passed. */
  ghost predicate SweptOut(db: Db, step: Step, r: Reservation) {
    (step.Reserve? || step.Expire?) && Touches(db, step, r.request.group) && !r.slotReleased && r.request.deadline <= step.now
  }

  ghost predicate SettlesRow(db: Db, step: Step, r: Reservation) { Acted(db, step, r) && step.action.Settle? && r.status != Settled }

  /** Row `r` became `v`: every field tells what was last accepted for it. */
  ghost predicate RowRecords(db: Db, step: Step, r: Reservation, v: Reservation) {
    var settles, swept := SettlesRow(db, step, r), SweptOut(db, step, r);
    var done := Acted(db, step, r) && (step.action.MarkUnknown? || step.action.CompleteUnknownUsage?);
    && v.request == r.request && v.generation == r.generation
    && v.dispatchedAt == (if Acted(db, step, r) && step.action.Dispatch? then Some(step.now) else r.dispatchedAt)
    && v.outcome == (if Acted(db, step, r) && step.action.RecordOutcome? then Some(step.action.outcome) else r.outcome)
    && v.actual == (if settles then Some(step.action.actual) else r.actual)
    && v.kind == (if settles then Some(step.action.kind) else r.kind)
    && v.slotReleased == (r.slotReleased || swept || settles || (Acted(db, step, r) && step.action.CompleteUnknownUsage?))
    && v.status == (if settles || r.status == Settled then Settled else if swept || done then Unknown else r.status)
  }

  lemma SweepRecords(db: Db, step: Step, i: nat, group: string)
    requires Inv(db) && i < |db.rows| && group in db.quotas && (step.Reserve? || step.Expire?)
    requires Touches(db, step, group) && (step.Reserve? ==> step.request.group == group) && (step.Expire? ==> step.group == group)
    ensures RowRecords(db, step, db.rows[i], SweepRow(db.rows[i], group, step.now))
  {
    RowIsOk(db, i);
    hide Inv, RowOk, SweepQuota, SweepRows, Rotate, Find, ValidRequest, OverdueCount, Quota.Reserve, ExpireRequestSlots;
    SettledIsReleased(db, i);
  }

  lemma SettledIsReleased(db: Db, i: nat)
    requires Inv(db) && i < |db.rows|
    ensures db.rows[i].status == Settled ==> db.rows[i].slotReleased
  {
    RowIsOk(db, i);
  }

  lemma EffectRecords(q: Snapshot, r: Reservation, now: Instant, action: Action)
    requires ActEffect(q, r, now, action).Success? && (r.status == Settled ==> r.slotReleased)
    ensures var v, settles := ActEffect(q, r, now, action).value.r, action.Settle? && r.status != Settled;
      && v.request == r.request && v.generation == r.generation
      && v.dispatchedAt == (if action.Dispatch? then Some(now) else r.dispatchedAt)
      && v.outcome == (if action.RecordOutcome? then Some(action.outcome) else r.outcome)
      && v.actual == (if settles then Some(action.actual) else r.actual) && v.kind == (if settles then Some(action.kind) else r.kind)
      && v.slotReleased == (r.slotReleased || settles || action.CompleteUnknownUsage?)
      && v.status == (if settles || r.status == Settled then Settled else if action.MarkUnknown? || action.CompleteUnknownUsage? then Unknown else r.status)
  {}

  /** A row nothing was accepted for stays as it is. */
  lemma UntouchedRecords(db: Db, step: Step, r: Reservation)
    requires !Acted(db, step, r) && !SweptOut(db, step, r)
    ensures RowRecords(db, step, r, r)
  {
    hide Acted, SweptOut;
  }

  lemma ReserveRecords(db: Db, r: Request, now: Instant, i: nat)
    requires Inv(db) && i < |db.rows|
    ensures var v := Quota.Reserve(db, r, now).0; i < |v.rows| && RowRecords(db, Step.Reserve(r, now), db.rows[i], v.rows[i])
  {
    hide Inv, Find, Rotate, SweepQuota, ValidRequest, DenialOf, RowRecords, Fresh, Admit;
    var step := Step.Reserve(r, now);
    if Quota.Reserve(db, r, now).1.Rejected? {
      UntouchedRecords(db, step, db.rows[i]);
    } else {
      SweepRecords(db, step, i, r.group);
    }
  }

  lemma ExpireRecords(db: Db, group: string, now: Instant, i: nat)
    requires Inv(db) && i < |db.rows|
    ensures var v := ExpireRequestSlots(db, group, now).0; i < |v.rows| && RowRecords(db, Step.Expire(group, now), db.rows[i], v.rows[i])
  {
    hide Inv, Find, Rotate, SweepQuota, RowRecords, OverdueCount;
    var step := Step.Expire(group, now);
    if ExpireRequestSlots(db, group, now).1.Success? {
      SweepRecords(db, step, i, group);
    } else {
      UntouchedRecords(db, step, db.rows[i]);
    }
  }

  lemma MutateRecords(db: Db, key: Key, action: Action, now: Instant, i: nat)
    requires Inv(db) && i < |db.rows|
    ensures var v := Quota.Mutate(db, key, action, now).0;
      i < |v.rows| && RowRecords(db, Step.Mutate(key, action, now), db.rows[i], v.rows[i])
  {
    hide Inv, Find, Rotate, ActEffect, ValidAction;
    var step, r := Step.Mutate(key, action, now), db.rows[i];
    FindAtRow(db, i);
    SettledIsReleased(db, i);
    if Quota.Mutate(db, key, action, now).1.Success? && Find(db.rows, key) == i {
      EffectRecords(Rotate(db.quotas[r.request.group], now), r, now, action);
      hide Quota.Mutate, SweptOut;
    } else {
      UntouchedRecords(db, step, r);
    }
  }

  /** Over one transaction, every existing row changes exactly as the accepted actions
      and the sweep say, and stays where it is. */
  lemma RowsRecord(db: Db, step: Step, i: nat)
    requires Inv(db) && i < |db.rows|
    ensures i < |Do(db, step).rows| && RowRecords(db, step, db.rows[i], Do(db, step).rows[i])
  {
    hide Inv, RowRecords, Quota.Reserve, Quota.Mutate, ExpireRequestSlots;
    match step
    case Configure(c, now) => UntouchedRecords(db, step, db.rows[i]);
    case Reserve(r, now) => ReserveRecords(db, r, now, i);
    case Mutate(key, action, now) => MutateRecords(db, key, action, now, i);
    case Expire(group, now) => ExpireRecords(db, group, now, i);
  }

  lemma FindAtRow(db: Db, i: nat)
    requires Inv(db) && i < |db.rows|
    ensures Find(db.rows, db.rows[i].request.key) == i
  {
    FindAt(db.rows, i);
  }

  // ----- which actions a row accepts ------------------------------------------------------------------

  /** What the row, and for a charge the window's committed amounts, allow. */
  ghost predicate Permits(r: Reservation, tokens: int, cost: int, action: Action, now: Instant) {
    match action
    case Dispatch => r.dispatchedAt.None? && r.status == Reserved && !r.slotReleased && now < r.request.deadline
    case MarkUnknown => r.status != Settled
    case CompleteUnknownUsage => r.status != Settled && r.dispatchedAt.Some?
    case Settle(actual, kind) =>
      && actual.tokens >= 0 && actual.cost >= 0 && actual.tokens <= MAX_INT64 && actual.cost <= MAX_INT64
      && (kind == NotDispatched ==> actual == Settlement(0, 0))
      && if r.status == Settled then r.actual == Some(actual) && r.kind == Some(kind)
         else (kind == ActualUsage <==> r.dispatchedAt.Some?) && tokens + actual.tokens <= MAX_INT64 && cost + actual.cost <= MAX_INT64
    case RecordOutcome(outcome) => if r.outcome.Some? then r.outcome.value == outcome else r.dispatchedAt.Some?
  }

  /** A reservation accepts exactly the actions its record permits; a second dispatch
      and an abandonment after dispatch are told apart from other refusals. */
  lemma ActionAcceptedIff(db: Db, i: nat, action: Action, now: Instant)
    requires Inv(db) && i < |db.rows|
    ensures var r := db.rows[i]; r.request.group in db.quotas
    ensures var r := db.rows[i]; var q := db.quotas[r.request.group]; var result := Quota.Mutate(db, r.request.key, action, now).1;
      && (result.Success? <==> Permits(r, Carried(q, q.committedTokens, now), Carried(q, q.committedCost, now), action, now))
      && (result == Failure(ErrAlreadyDispatched) <==>
            r.dispatchedAt.Some? && (action.Dispatch? || (action.Settle? && action.kind == NotDispatched && r.status != Settled && ValidAction(action))))
  {
    FindAtRow(db, i);
    GroupOfRow(db, i);
    var r := db.rows[i];
    var q := db.quotas[r.request.group];
    CommittedRange(db, r.request.group);
    hide Inv, Find;
    RotateCarries(q, now);
    hide Rotate;
  }

  lemma GroupOfRow(db: Db, i: nat)
    requires Inv(db) && i < |db.rows|
    ensures db.rows[i].request.group in db.quotas
  {}

  lemma CommittedRange(db: Db, group: string)
    requires Inv(db) && group in db.quotas
    ensures db.quotas[group].committedTokens >= 0 && db.quotas[group].committedCost >= 0
  {
    assert Balanced(db.quotas[group], Held(db.rows, group));
  }

  lemma RotateCarries(q: Snapshot, now: Instant)
    ensures Rotate(q, now).committedTokens == Carried(q, q.committedTokens, now) && Rotate(q, now).committedCost == Carried(q, q.committedCost, now)
  {}

  // ----- new rows, replays and denials ------------------------------------------------------------------

  /** An admission adds exactly one undispatched row of the current window; a replay of
      the same request finds its row, and neither it nor a refusal adds one. */
  lemma ReserveAnswers(db: Db, r: Request, now: Instant)
    requires Inv(db)
    ensures var v, answer, i := Quota.Reserve(db, r, now).0, Quota.Reserve(db, r, now).1, Find(db.rows, r.key);
      && (answer.Admitted? ==>
            && r.group in v.quotas && |v.rows| == |db.rows| + 1 && v.rows[|db.rows|] == answer.row && i == |db.rows|
            && answer.row.request == r && answer.row.status == Reserved && !answer.row.slotReleased && answer.row.dispatchedAt.None?
            && answer.row.actual.None? && answer.row.kind.None? && answer.row.outcome.None? && answer.row.generation == v.quotas[r.group].generation)
      && (!answer.Admitted? ==> |v.rows| == |db.rows|)
      && (answer.Existing? ==> i < |v.rows| && v.rows[i] == answer.row && answer.row.request == r)
  {
    hide Inv, SweepQuota, SweepRows, Rotate, Find, ValidRequest, DenialOf;
    if r.group in db.quotas {
      SweptFind(db, r.group, now, r.key);
    }
  }

  lemma SweptFind(db: Db, group: string, now: Instant, key: Key)
    requires Inv(db) && group in db.quotas
    ensures SweepQuota(Rotate(db.quotas[group], now), db.rows, group, now).Some?
    ensures var rows := SweepRows(db.rows, group, now);
      && |rows| == |db.rows| && Find(rows, key) == Find(db.rows, key)
      && (Find(rows, key) < |rows| ==> rows[Find(rows, key)].request == db.rows[Find(rows, key)].request)
  {
    hide SweepQuota, Rotate, Balanced, ProbeOk, RowOk;
    SweepInv(db, group, now);
    SweptRows(db.rows, group, now);
    KeysAreUnique(db);
    FindSame(db.rows, SweepRows(db.rows, group, now), key);
  }

  /** Which refusals roll back, and for what. */
  lemma ReserveRefusals(db: Db, r: Request, now: Instant)
    requires Inv(db)
    ensures var v, answer, i := Quota.Reserve(db, r, now).0, Quota.Reserve(db, r, now).1, Find(db.rows, r.key);
      && (answer.Rejected? ==> v == db)
      && (answer == Rejected(ErrConflict) <==> ValidRequest(r) && r.group in db.quotas && i < |db.rows| && db.rows[i].request != r)
      && (answer == Rejected(ErrInvalid) <==> !ValidRequest(r) || (r.group in db.quotas && i == |db.rows| && r.deadline <= now))
      && (answer == Rejected(ErrNotFound) <==> ValidRequest(r) && r.group !in db.quotas)
  {
    hide Inv, SweepQuota, SweepRows, Rotate, Find, ValidRequest, DenialOf, Admit, Fresh;
    if r.group in db.quotas {
      SweptFind(db, r.group, now, r.key);
    }
  }

  /** The reason of a denial is the first limit in the way: breaker, concurrency, tokens,
      cost, each measured on the reservations themselves. */
  lemma DenialReasons(db: Db, r: Request, now: Instant)
    requires Inv(db) && Quota.Reserve(db, r, now).1.Denied?
    ensures r.group in db.quotas
    ensures var q, held, reason := db.quotas[r.group], Held(SweepRows(db.rows, r.group, now), r.group), Quota.Reserve(db, r, now).1.reason;
      var room := held.active < q.maxConcurrent;
      var tokens := Carried(q, q.committedTokens, now) + held.tokens + r.Tokens() <= q.maxTokens;
      var cost := Carried(q, q.committedCost, now) + held.cost + r.maxCost <= q.maxCost;
      && (reason == ConcurrencyLimit ==> !room) && (reason == TokenBudget ==> room && !tokens) && (reason == CostBudget ==> room && tokens && !cost)
  {
    hide Inv, SweepQuota, SweepRows, ValidRequest, Held, Find, Rotate, DenialOf, Balanced;
    DeniedBy(db, r, now);
    SweptBalance(db, r.group, now);
    SweepMeans(db.quotas[r.group], db.rows, r.group, now);
    SizesNonNegative(db, r, now);
    DenialOrder(SweepQuota(Rotate(db.quotas[r.group], now), db.rows, r.group, now).value, r, now);
  }

  lemma DeniedBy(db: Db, r: Request, now: Instant)
    requires Quota.Reserve(db, r, now).1.Denied?
    ensures ValidRequest(r) && r.group in db.quotas && SweepQuota(Rotate(db.quotas[r.group], now), db.rows, r.group, now).Some?
    ensures DenialOf(SweepQuota(Rotate(db.quotas[r.group], now), db.rows, r.group, now).value, r, now) == Some(Quota.Reserve(db, r, now).1.reason)
  {
    hide SweepQuota, SweepRows, ValidRequest, Find, Rotate, DenialOf;
  }

  lemma DenialOrder(q: Snapshot, r: Request, now: Instant)
    requires 0 <= q.committedTokens && 0 <= q.committedCost && 0 <= q.reservedTokens && 0 <= q.reservedCost && 0 <= r.Tokens() && 0 <= r.maxCost
    ensures var reason := DenialOf(q, r, now); var room := q.active < q.maxConcurrent;
      var tokens := q.committedTokens + q.reservedTokens + r.Tokens() <= q.maxTokens;
      var cost := q.committedCost + q.reservedCost + r.maxCost <= q.maxCost;
      && (reason == Some(ConcurrencyLimit) ==> !room) && (reason == Some(TokenBudget) ==> room && !tokens)
      && (reason == Some(CostBudget) ==> room && tokens && !cost)
  {}

  /** A configuration sets exactly its limits; counters, windows and breaker stay. */
  lemma ConfigureSets(db: Db, c: Config, now: Instant)
    ensures var v := Do(db, Step.Configure(c, now));
      && v.rows == db.rows && (forall g :: g != c.group ==> (g in v.quotas <==> g in db.quotas) && (g in db.quotas ==> v.quotas[g] == db.quotas[g]))
      && (!ValidConfig(c) ==> v == db)
      && (ValidConfig(c) ==>
            && c.group in v.quotas && var q := v.quotas[c.group];
               && q.maxConcurrent == c.maxConcurrent && q.maxTokens == c.maxTokens && q.maxCost == c.maxCost
               && q.window == c.window && q.threshold == c.threshold && q.cooldown == c.cooldown
               && if c.group in db.quotas then
                    var o := db.quotas[c.group];
                    && q.active == o.active && q.reservedTokens == o.reservedTokens && q.committedTokens == o.committedTokens
                    && q.reservedCost == o.reservedCost && q.committedCost == o.committedCost && q.failures == o.failures
                    && q.probe == o.probe && q.breakerUntil == o.breakerUntil && Turned(o, q, now, false)
                  else
                    && q.active == 0 && q.reservedTokens == 0 && q.committedTokens == 0 && q.reservedCost == 0 && q.committedCost == 0
                    && q.failures == 0 && q.probe.None? && q.breakerUntil.None? && q.generation == 1 && q.windowEndsAt == now + c.window)
  {}

  // ----- the probe's own transactions -------------------------------------------------------------------

  /** What the probe itself does to the breaker: a first success closes it, a first
      failure or neutral report and an abandonment reopen it, the rest leave it. */
  lemma ProbeActs(db: Db, action: Action, now: Instant, group: string)
    requires Inv(db) && group in db.quotas && db.quotas[group].probe.Some?
    requires Quota.Mutate(db, db.quotas[group].probe.value, action, now).1.Success?
    ensures var q := db.quotas[group]; var v := Quota.Mutate(db, q.probe.value, action, now).0; var r := db.rows[Find(db.rows, q.probe.value)];
      && group in v.quotas && Find(db.rows, q.probe.value) < |db.rows|
      && Changed(q, v.quotas[group], now,
           if action == RecordOutcome(Succeeded) then Closes
           else if action.RecordOutcome? || (action.Settle? && action.kind == NotDispatched && r.status != Settled) then Reopens else Keeps)
  {
    assert ProbeOk(db.quotas[group], db.rows, group);
    hide Inv, Find;
    var q := db.quotas[group];
    ProbeEffect(q, db.rows[Find(db.rows, q.probe.value)], now, action);
    hide ActEffect, Rotate;
  }

  lemma ProbeEffect(q: Snapshot, r: Reservation, now: Instant, action: Action)
    requires OwnsProbe(q, r) && r.outcome.None? && ActEffect(Rotate(q, now), r, now, action).Success?
    ensures Changed(q, ActEffect(Rotate(q, now), r, now, action).value.q, now,
      if action == RecordOutcome(Succeeded) then Closes
      else if action.RecordOutcome? || (action.Settle? && action.kind == NotDispatched && r.status != Settled) then Reopens else Keeps)
  {}

  /** What any first report does to the breaker. */
  lemma ReportMoves(db: Db, step: Step, group: string, outcome: Outcome)
    requires Inv(db) && group in db.quotas && FirstReport(db, step, group, outcome)
    ensures group in Do(db, step).quotas
    ensures var q, v, own := db.quotas[group], Do(db, step).quotas[group], db.quotas[group].probe == Some(step.key);
      Changed(q, v, step.now,
        match outcome
        case Succeeded => if q.breakerUntil.None? || own then Closes else Keeps
        case Failed => if q.failures + 1 >= q.threshold || own then Reopens else Keeps
        case Neutral => if own then Reopens else Keeps)
  {
    ProbeNeedsOpen(db, group);
    hide Inv, Find;
    var i := Find(db.rows, step.key);
    ReportEffect(db.quotas[group], db.rows[i], step.now, outcome);
    hide ActEffect, Rotate;
  }

  lemma ReportEffect(q: Snapshot, r: Reservation, now: Instant, outcome: Outcome)
    requires r.outcome.None? && r.dispatchedAt.Some? && (q.probe.Some? ==> q.breakerUntil.Some?)
    ensures var e := ActEffect(Rotate(q, now), r, now, RecordOutcome(outcome));
      && e.Success?
      && Changed(q, e.value.q, now,
           match outcome
           case Succeeded => if q.breakerUntil.None? || OwnsProbe(q, r) then Closes else Keeps
           case Failed => if q.failures + 1 >= q.threshold || OwnsProbe(q, r) then Reopens else Keeps
           case Neutral => if OwnsProbe(q, r) then Reopens else Keeps)
  {}
}
