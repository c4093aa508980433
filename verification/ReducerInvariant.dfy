/** The inductive invariant of the reducer: what every snapshot reachable from a
    valid new run satisfies, and why the closing validation never fires. */
module ReducerInvariant {
  import opened Domain
  import opened RunTypes
  import opened Progress
  import opened Reducer

  /** The stage the run is really in: adoption only suspends it. */
  function EffectiveStage(s: State): Stage {
    if s.stage == StageAdoptWorkspace then s.resumeStage else s.stage
  }

  /** Stages between two tool batches: no effect is planned or remembered. */
  predicate BatchFree(stage: Stage) {
    stage in {StageInitialize, StageBuildContext, StageModel, StageValidateTools, StageIngestResults,
              StageVerify, StageFinalize}
  }

  /** The planned part of the ledger: a well-formed batch, none of it the pending one. */
  ghost predicate GoodPlan(remaining: seq<Effect>, pending: Option<Effect>) {
    && |remaining| <= MAX_BATCH && GoodBatch(remaining)
    && (pending.Some? ==>
          && (forall i :: 0 <= i < |remaining| ==> remaining[i].id != pending.value.id)
          && EffectError(pending.value).None?)
  }

  function IdentityOf(pending: Option<Effect>): Option<Effect> {
    if pending.Some? then Some(Identity(pending.value)) else None
  }

  ghost predicate GoodEffects(s: State) {
    && GoodPlan(s.remainingEffects, IdentityOf(s.pendingEffect))
    && (s.pendingEffect.Some? ==> ValidLedgerEntry(s, s.pendingEffect.value))
  }

  predicate Header(s: State) {
    && s.schemaVersion == SNAPSHOT_SCHEMA_VERSION && s.version != 0 && s.status != NoStatus && s.stage != NoStage
    && s.cost >= 0 && s.limits.maxCost >= 0 && ValidId(s.runId) && ValidId(s.tenantId)
  }

  /** Where an advancing run may stand, and what its ledger then holds. */
  predicate Placement(s: State) {
    && (s.stage == StageInitialize <==> s.workspaceRevision == 0)
    && (s.status == StatusQueued ==> s.stage in {StageInitialize, StageExecuteEffects})
    && (s.status == StatusRunning ==>
          BatchFree(s.stage) || s.stage in {StageExecuteEffects, StageAdoptWorkspace})
    && (s.status == StatusRunning && s.stage == StageAdoptWorkspace ==>
          s.resumeStage != StageInitialize && (BatchFree(s.resumeStage) || s.resumeStage == StageExecuteEffects))
    && (s.status == StatusNeedsReconciliation && s.stage == StageAdoptWorkspace ==> s.resumeStage == StageReconcile)
    && (s.stage == StageInitialize ==> s.resumeStage == NoStage && s.verification == VerificationUnverified
                                       && s.approval.None?)
    && (s.status in {StatusQueued, StatusRunning} && EffectiveStage(s) == StageExecuteEffects ==> s.pendingEffect.Some?)
  }

  ghost predicate Ledger(s: State) {
    && (s.status != StatusCancelRequested && BatchFree(EffectiveStage(s)) ==>
          s.pendingEffect.None? && s.remainingEffects == [])
    && (s.stage == StageInitialize ==> s.pendingEffect.None? && s.remainingEffects == [])
    && (s.pendingEffect.Some? && s.status != StatusCancelRequested ==>
          s.pendingEffect.value.status in {EffectPlanned, EffectInFlight, EffectUnknown})
    && (s.pendingEffect.Some? && s.pendingEffect.value.status in {EffectPlanned, EffectInFlight, EffectUnknown} ==>
          s.pendingEffect.value.expectedRevision == s.workspaceRevision)
    && (s.progress.Some? && s.status != StatusCancelRequested ==>
          s.progress.value.repeatedBatches < s.limits.maxNoProgressBatches)
  }

  ghost predicate Sound(s: State) {
    && Header(s) && ValidProgressState(s) && ValidStop(s) && ValidOwnership(s) && GoodEffects(s) && ValidBindings(s)
  }

  ghost predicate Inv(s: State) {
    Sound(s) && (!s.status.Terminal() ==> Placement(s) && Ledger(s))
  }

  /** Every invariant snapshot passes validation. */
  lemma SoundIsValid(s: State)
    requires Sound(s)
    ensures SnapshotError(s).None?
  {
    BatchErrorMeaning(s.remainingEffects, {}, ErrInvalid);
  }

  lemma NewStateInv(tenantId: string, runId: string, limits: Limits)
    requires SnapshotError(NewState(tenantId, runId, limits)).None?
    ensures Inv(NewState(tenantId, runId, limits))
  {}

  /** Only the lease expiry differs: heartbeats and deferrals rewrite it in place. */
  lemma LeaseClockInv(s: State, until: Instant)
    requires Inv(s)
    ensures Inv(s.(lease := s.lease.(until := until)))
  {
    var t := s.(lease := s.lease.(until := until));
    assert GoodEffects(t) && ValidProgressState(t);
  }

  // ----- each branch keeps the invariant ----------------------------------------------

  /** A state from which the next planned effect of the batch may be scheduled. */
  ghost predicate Schedulable(s: State) {
    && Header(s) && ValidProgressState(s) && s.status == StatusRunning && s.stopTarget == NoStatus
    && s.lease.owner != "" && s.lease.epoch != 0 && s.workspaceRevision != 0
    && s.pendingEffect.None? && s.approval.None?
    && GoodPlan(s.remainingEffects, None)
    && (s.verification != VerificationUnverified ==>
          s.verificationReportRef != "" && s.verificationRevision == s.workspaceRevision)
    && s.stage !in {StageInitialize, StageStopped}
    && (s.progress.Some? ==> s.progress.value.repeatedBatches < s.limits.maxNoProgressBatches)
  }

  lemma NextOfBatch(effects: seq<Effect>, revision: uint64)
    requires GoodPlan(effects, None) && effects != []
    ensures GoodPlan(effects[1..], Some(effects[0].(expectedRevision := revision, status := EffectPlanned)))
    ensures effects[0].dispatchEpoch == 0 && effects[0].receiptRef == ""
  {}

  lemma Cleared(remaining: seq<Effect>, pending: Option<Effect>)
    requires GoodPlan(remaining, pending)
    ensures GoodPlan(remaining, None) && GoodPlan([], None) && GoodPlan([], pending)
  {}

  /** A running state whose pending effect is planned and ready to leave. */
  ghost predicate Dispatchable(s: State) {
    && Header(s) && ValidProgressState(s) && s.status == StatusRunning && s.stopTarget == NoStatus
    && s.lease.owner != "" && s.lease.epoch != 0 && s.workspaceRevision != 0 && s.toolCalls < MAX_UINT64
    && s.pendingEffect.Some? && GoodPlan(s.remainingEffects, IdentityOf(s.pendingEffect))
    && s.pendingEffect.value.status == EffectPlanned && s.pendingEffect.value.dispatchEpoch == 0
    && s.pendingEffect.value.receiptRef == "" && s.pendingEffect.value.expectedRevision == s.workspaceRevision
    && (s.approval.Some? ==>
          && s.pendingEffect.value.requiresApproval && s.approval.value.version != 0
          && ApprovalMatches(s.approval.value, s.pendingEffect.value, s.workspaceRevision))
    && (s.verification != VerificationUnverified ==>
          s.verificationReportRef != "" && s.verificationRevision == s.workspaceRevision)
    && (s.progress.Some? ==> s.progress.value.repeatedBatches < s.limits.maxNoProgressBatches)
  }

  lemma DispatchInv(s: State)
    requires Dispatchable(s)
    ensures Inv(Dispatch(s).next)
  {
    assert IdentityOf(Dispatch(s).next.pendingEffect) == IdentityOf(s.pendingEffect);
  }

  lemma ScheduleInv(s: State, e: Event)
    requires Schedulable(s)
    ensures Schedule(s, e).Accepted? && Inv(Schedule(s, e).next)
  {
    if s.remainingEffects != [] {
      NextOfBatch(s.remainingEffects, s.workspaceRevision);
      if !BudgetReached(s, e, false, true) {
        var effect := s.remainingEffects[0].(expectedRevision := s.workspaceRevision, status := EffectPlanned);
        var planned := s.(remainingEffects := s.remainingEffects[1..], pendingEffect := Some(effect));
        assert Identity(effect) == effect;
        if !effect.requiresApproval {
          DispatchInv(planned);
        }
      }
    }
  }

  lemma SettleInv(s: State, e: Event, reconciliation: bool)
    requires Inv(s) && AdmissionError(s, e).None? && SettleEffect(s, e, reconciliation).Accepted?
    requires s.status in {StatusRunning, StatusNeedsReconciliation, StatusCancelRequested} && !ControlEvent(e.kind) && e.kind != EventClaimed
    requires s.status == StatusRunning ==> s.stage == StageExecuteEffects
    requires s.status == StatusNeedsReconciliation ==> s.stage == StageReconcile
    ensures Inv(SettleEffect(s, e, reconciliation).next)
  {
    var r, effect := e.receipt.value, s.pendingEffect.value;
    if s.status != StatusCancelRequested {
      var n := s.(pendingEffect := None, workspaceRevision := r.afterRevision, reconciliationRevision := 0,
                  outputRef := r.ref, verification := VerificationUnverified, verificationReportRef := "",
                  verificationRevision := 0, approval := None, status := StatusRunning, failureReason := "",
                  remainingEffects := if r.status != EffectSucceeded then [] else s.remainingEffects);
      assert SettleEffect(s, e, reconciliation) == Schedule(n, e);
      Cleared(s.remainingEffects, IdentityOf(s.pendingEffect));
      ScheduleInv(n, e);
    }
  }

  /** Adoption that finds unresolved work parks the run in reconciliation. */
  lemma ParkInv(s: State, revision: uint64, reason: string)
    requires Inv(s) && s.stage == StageAdoptWorkspace && s.status in {StatusRunning, StatusNeedsReconciliation}
    ensures Inv(s.(reconciliationRevision := revision, failureReason := reason,
                   status := StatusNeedsReconciliation, stage := StageReconcile))
  {}

  lemma AdoptInv(s: State, e: Event)
    requires Inv(s) && s.lease.owner != "" && s.lease.epoch != 0 && Adopt(s, e).Accepted?
    ensures Inv(Adopt(s, e).next)
  {
    hide GoodPlan, ValidProgress, ValidId, GoodEffects, CommandForStage;
    if Unsettled(s.pendingEffect) {
      ParkInv(s, e.stop.value.workspaceRevision, s.failureReason);
    } else if e.stop.value.workspaceRevision != s.workspaceRevision {
      ParkInv(s, s.reconciliationRevision, "workspace changed without a pending ledger effect");
    } else {
      SuspendedStopInv(s, "budget reached while workspace was suspended");
      ResumeInv(s, e);
    }
  }

  lemma SuspendedStopInv(s: State, reason: string)
    requires Inv(s) && s.status == StatusRunning && s.stage == StageAdoptWorkspace
    ensures Inv(Stop(s.(stage := s.resumeStage, resumeStage := NoStage), StatusBudgetExhausted, reason).next)
  {
    hide GoodPlan, ValidProgress, ValidId;
  }

  /** Adoption resumes the suspended stage, or stops on a budget met meanwhile. */
  lemma ResumeInv(s: State, e: Event)
    requires Inv(s) && s.status == StatusRunning && s.stage == StageAdoptWorkspace && !Unsettled(s.pendingEffect)
    requires s.lease.owner != "" && s.lease.epoch != 0
    ensures var resumed := s.(stage := s.resumeStage, resumeStage := NoStage);
            ((resumed.stage == StageExecuteEffects ==> resumed.toolCalls < MAX_UINT64) && CommandForStage(resumed).Accepted? ==>
                  Inv(CommandForStage(resumed).next))
  {
    hide GoodPlan, ValidProgress, ValidId;
    var resumed := s.(stage := s.resumeStage, resumeStage := NoStage);
    if resumed.stage == StageExecuteEffects && resumed.toolCalls < MAX_UINT64 {
      DispatchInv(resumed);
    }
  }

  lemma LiveOwner(l: Lease, at: Instant)
    requires l.ValidAt(at)
    ensures l.owner != "" && l.epoch != 0
  {}

  lemma ToolsValidatedInv(s: State, e: Event)
    requires Inv(s) && AdmissionError(s, e).None? && e.kind == EventToolsValidated && ToolsValidated(s, e).Accepted?
    ensures Inv(ToolsValidated(s, e).next)
  {
    BatchErrorMeaning(e.effects, {}, ErrConflict);
    ScheduleInv(s.(outputRef := e.outputRef, remainingEffects := e.effects), e);
  }

  lemma ContextBuiltInv(s: State, e: Event)
    requires Inv(s) && AdmissionError(s, e).None? && e.kind == EventContextBuilt && ContextBuilt(s, e).Accepted?
    ensures Inv(ContextBuilt(s, e).next)
  {
    hide GoodPlan, ValidWindow, ValidId, Blank, ObserveProgress, BudgetReached;
    ObserveProgressValid(s, e);
  }

  /** Stopping any live snapshot is sound: the ledger is left exactly as it was. */
  lemma StopInv(s: State, target: RunStatus, reason: string)
    requires Inv(s) && !s.status.Terminal() && s.status != StatusCancelRequested
    requires target in {StatusCancelled, StatusFailed, StatusBudgetExhausted}
    ensures Inv(Stop(s, target, reason).next)
  {}

  lemma ClaimInv(s: State, e: Event)
    requires Inv(s) && Claim(s, e).Accepted?
    ensures Inv(Claim(s, e).next)
  {
    LiveOwner(e.lease.value, e.at);
    hide GoodPlan, ValidProgress, ValidId, Blank;
    var leased := s.(lease := e.lease.value);
    if s.status == StatusCancelRequested {
      assert GoodEffects(leased);
    } else if s.workspaceRevision == 0 {
      assert s.stage == StageInitialize;
    } else if s.status == StatusNeedsReconciliation {
      SuspendInv(leased, StatusNeedsReconciliation);
    } else {
      SuspendInv(leased, StatusRunning);
    }
  }

  /** A claim on an existing workspace suspends the stage behind adoption. */
  lemma SuspendInv(s: State, status: RunStatus)
    requires Header(s) && ValidProgressState(s) && ValidStop(s) && GoodEffects(s) && ValidBindings(s)
    requires Placement(s) && Ledger(s) && s.workspaceRevision != 0 && s.lease.owner != "" && s.lease.epoch != 0
    requires status == if s.status == StatusNeedsReconciliation then StatusNeedsReconciliation else StatusRunning
    requires s.status in {StatusQueued, StatusRunning, StatusNeedsReconciliation}
    requires s.status == StatusNeedsReconciliation ==> s.stage in {StageReconcile, StageAdoptWorkspace}
    ensures Inv(s.(status := status, resumeStage := if s.stage != StageAdoptWorkspace then s.stage else s.resumeStage,
                   stage := StageAdoptWorkspace))
  {}

  lemma CapacityRejectedInv(s: State, e: Event)
    requires Inv(s) && AdmissionError(s, e).None? && e.kind == EventCapacityRejected && CapacityRejected(s, e).Accepted?
    ensures Inv(CapacityRejected(s, e).next)
  {
    hide GoodPlan, ValidProgress, ValidId, Blank;
  }

  lemma WorkspaceReadyInv(s: State, e: Event)
    requires Inv(s) && AdmissionError(s, e).None? && e.kind == EventWorkspaceReady && WorkspaceReady(s, e).Accepted?
    ensures Inv(WorkspaceReady(s, e).next)
  {
    hide GoodPlan, ValidProgress, ValidId, Blank;
  }

  lemma ModelCompletedInv(s: State, e: Event)
    requires Inv(s) && AdmissionError(s, e).None? && e.kind == EventModelCompleted && ModelCompleted(s, e).Accepted?
    ensures Inv(ModelCompleted(s, e).next)
  {
    hide GoodPlan, ValidProgress, ValidId, Blank;
  }

  lemma EffectUncertainInv(s: State, e: Event)
    requires Inv(s) && AdmissionError(s, e).None? && e.kind == EventEffectUncertain && EffectUncertain(s, e).Accepted?
    ensures Inv(EffectUncertain(s, e).next)
  {
    hide GoodPlan, ValidProgress, ValidId, Blank;
  }

  lemma ResultsIngestedInv(s: State, e: Event)
    requires Inv(s) && AdmissionError(s, e).None? && e.kind == EventResultsIngested && ResultsIngested(s, e).Accepted?
    ensures Inv(ResultsIngested(s, e).next)
  {
    hide GoodPlan, ValidProgress, ValidId, Blank;
  }

  lemma DecideApprovalInv(s: State, e: Event)
    requires Inv(s) && AdmissionError(s, e).None? && e.kind == EventApprovalDecided && DecideApproval(s, e).Accepted?
    ensures Inv(DecideApproval(s, e).next)
  {
    hide GoodPlan, ValidProgress, ValidId, Blank;
  }

  lemma VerificationCompletedInv(s: State, e: Event)
    requires Inv(s) && AdmissionError(s, e).None? && e.kind == EventVerificationCompleted && VerificationCompleted(s, e).Accepted?
    ensures Inv(VerificationCompleted(s, e).next)
  {
    hide GoodPlan, ValidProgress, ValidId, Blank;
  }

  lemma FinalizedInv(s: State, e: Event)
    requires Inv(s) && AdmissionError(s, e).None? && e.kind == EventFinalized && Finalized(s, e).Accepted?
    ensures Inv(Finalized(s, e).next)
  {
    hide GoodPlan, ValidProgress, ValidId, Blank;
  }

  lemma ConfirmStopInv(s: State, e: Event)
    requires Inv(s) && AdmissionError(s, e).None? && e.kind == EventCancellationConfirmed && ConfirmStop(s, e).Accepted?
    ensures Inv(ConfirmStop(s, e).next)
  {
    Cleared(s.remainingEffects, IdentityOf(s.pendingEffect));
  }

  lemma ResumeRequestedInv(s: State, e: Event)
    requires Inv(s) && AdmissionError(s, e).None? && e.kind == EventResumeRequested && ResumeRequested(s, e).Accepted?
    ensures Inv(ResumeRequested(s, e).next)
  {
    hide GoodPlan, ValidProgress, ValidId, Blank;
  }

  /** The invariant is inductive over every branch, before the closing check. */
  lemma BranchInv(s: State, e: Event)
    requires Inv(s) && AdmissionError(s, e).None? && !RepeatedCancel(s, e) && Branch(s, e).Accepted?
    ensures Inv(Branch(s, e).next)
  {
    hide Inv;
    match e.kind {
      case EventWorkspaceAdopted =>
        LiveOwner(s.lease, e.at);
        AdoptInv(s, e);
      case EventContextBuilt => ContextBuiltInv(s, e);
      case EventToolsValidated => ToolsValidatedInv(s, e);
      case EventEffectCompleted => SettleInv(s, e, false);
      case EventReconciled => SettleInv(s, e, true);
      case EventCancelRequested => StopInv(s, StatusCancelled, "cancellation requested");
      case EventFailed => StopInv(s, StatusFailed, e.reason);
      case EventBudgetReached => StopInv(s, StatusBudgetExhausted, e.reason);
      case EventClaimed => ClaimInv(s, e);
      case EventCapacityRejected => CapacityRejectedInv(s, e);
      case EventWorkspaceReady => WorkspaceReadyInv(s, e);
      case EventModelCompleted => ModelCompletedInv(s, e);
      case EventEffectUncertain => EffectUncertainInv(s, e);
      case EventResultsIngested => ResultsIngestedInv(s, e);
      case EventApprovalDecided => DecideApprovalInv(s, e);
      case EventVerificationCompleted => VerificationCompletedInv(s, e);
      case EventFinalized => FinalizedInv(s, e);
      case EventCancellationConfirmed => ConfirmStopInv(s, e);
      case EventResumeRequested => ResumeRequestedInv(s, e);
      case EventUnrecognized =>
    }
  }

  /** Neither validation of the reducer ever rejects a reachable snapshot: the
      outcome is decided by the admission guards and the event's own branch. */
  lemma ValidationNeverRejects(s: State, e: Event)
    requires Inv(s)
    ensures SnapshotError(s).None?
    ensures AdmissionError(s, e).Some? ==> Transition(s, e) == Rejected(AdmissionError(s, e).value)
    ensures AdmissionError(s, e).None? && RepeatedCancel(s, e) ==> Transition(s, e) == Accepted(s, [])
    ensures AdmissionError(s, e).None? && !RepeatedCancel(s, e) ==>
              Transition(s, e) == match Branch(s, e)
                                  case Rejected(error) => Rejected(error)
                                  case Accepted(n, commands) => Accepted(n.(version := s.version + 1), commands)
    ensures Transition(s, e).Accepted? ==> Inv(Transition(s, e).next)
  {
    hide Branch, GoodEffects, ValidBindings;
    SoundIsValid(s);
    if AdmissionError(s, e).None? && !RepeatedCancel(s, e) && Branch(s, e).Accepted? {
      BranchInv(s, e);
      var n := Branch(s, e).next;
      var next := n.(version := s.version + 1);
      VersionInv(n, s.version + 1);
      SoundIsValid(next);
    }
  }

  lemma VersionInv(s: State, version: uint64)
    requires Inv(s) && version > 0
    ensures Inv(s.(version := version))
  {
    var t := s.(version := version);
    assert GoodEffects(t) && ValidProgressState(t);
  }
}
