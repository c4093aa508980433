/** Snapshot, event and command values of one coding run
    (internal/runtime/types.go, internal/domain/types.go). */
module RunTypes {
  import opened Domain

  /** `NoStatus` and `NoStage` are the empty strings of the source. */
  datatype RunStatus =
    | NoStatus
    | StatusQueued | StatusRunning | StatusWaitingApproval | StatusCancelRequested
    | StatusCancelled | StatusCompleted | StatusFailed | StatusBudgetExhausted
    | StatusNeedsReconciliation
  {
    predicate Terminal() {
      this in {StatusCancelled, StatusCompleted, StatusFailed, StatusBudgetExhausted}
    }
  }

  datatype Stage =
    | NoStage
    | StageInitialize | StageAdoptWorkspace | StageBuildContext | StageModel
    | StageValidateTools | StageApprovalGate | StageExecuteEffects | StageIngestResults
    | StageVerify | StageFinalize | StageReconcile | StageStopped

  datatype Verification = VerificationUnverified | VerificationRegressionOnly | VerificationVerified

  /** `EffectUnset` is the empty string, `EffectUnrecognized` any other text. */
  datatype EffectStatus =
    | EffectUnset | EffectPlanned | EffectInFlight | EffectSucceeded | EffectFailed
    | EffectCancelled | EffectUnknown | EffectUnrecognized

  /** Tool arguments with the verdict of the JSON validators (canonical encoding
      of one object) and their SHA-256, both computed outside this model. */
  datatype Args = Args(text: string, canonicalObject: bool, sha256: string)

  datatype Effect = Effect(
    id: string, kind: string, args: Args, argsHash: string, expectedRevision: uint64,
    dispatchEpoch: uint64, policyVersion: string, requiresApproval: bool,
    status: EffectStatus, receiptRef: string)

  datatype ApprovalBinding = ApprovalBinding(
    effectId: string, argsHash: string, workspaceRevision: uint64, policyVersion: string,
    version: uint64, granted: bool)

  datatype Limits = Limits(
    maxNoProgressBatches: uint64, maxModelRounds: uint64, maxToolCalls: uint64,
    maxCost: int64, deadline: Instant)

  datatype Classification = Initial | Message | NewEvidence | Repeated | Indeterminate

  datatype ProgressState = ProgressState(
    lastCheckedStep: uint64, messageSeq: uint64, repeatedBatches: uint64,
    classification: Classification, recentEvidence: seq<string>, recentTrees: seq<string>)

  datatype Observation = Observation(
    effectId: string, receiptRef: string, fingerprint: string, beforeHash: string,
    afterHash: string, indeterminate: bool)

  datatype ProgressFrame = ProgressFrame(
    contextRef: string, policyVersion: nat, stepSeq: uint64, messageSeq: uint64,
    attemptId: string, verificationRef: string, observations: seq<Observation>)

  datatype State = State(
    progress: Option<ProgressState>, schemaVersion: nat, runId: string, tenantId: string,
    version: uint64, status: RunStatus, stage: Stage, resumeStage: Stage, lease: Lease,
    stepSeq: uint64, workspaceRevision: uint64, reconciliationRevision: uint64,
    pendingEffect: Option<Effect>, remainingEffects: seq<Effect>,
    approval: Option<ApprovalBinding>, outputRef: string, verification: Verification,
    verificationReportRef: string, verificationRevision: uint64, modelRounds: uint64,
    toolCalls: uint64, cost: int64, limits: Limits, failureReason: string,
    stopTarget: RunStatus)

  datatype EventKind =
    | EventClaimed | EventCapacityRejected | EventWorkspaceReady | EventWorkspaceAdopted
    | EventContextBuilt | EventModelCompleted | EventToolsValidated | EventEffectCompleted
    | EventEffectUncertain | EventResultsIngested | EventApprovalDecided
    | EventVerificationCompleted | EventFinalized | EventCancelRequested
    | EventCancellationConfirmed | EventResumeRequested | EventReconciled | EventFailed
    | EventBudgetReached | EventUnrecognized

  datatype Receipt = Receipt(
    effectId: string, argsHash: string, epoch: uint64, status: EffectStatus,
    beforeRevision: uint64, afterRevision: uint64, ref: string, settled: bool)

  datatype ApprovalDecision = ApprovalDecision(binding: ApprovalBinding, approve: bool)

  datatype Evidence = Evidence(
    trusted: bool, reportRef: string, workspaceRevision: uint64,
    baselineTargetFailed: bool, targetPassed: bool, regressionPassed: bool)

  datatype StopReceipt = StopReceipt(ref: string, noActiveOperations: bool, workspaceRevision: uint64)

  datatype Event = Event(
    progress: Option<ProgressFrame>, progressRef: string, kind: EventKind,
    expectedVersion: uint64, owner: string, epoch: uint64, at: Instant,
    notBefore: Option<Instant>, lease: Option<Lease>, workspaceRevision: uint64,
    outputRef: string, complete: bool, finish: bool, effects: seq<Effect>,
    receipt: Option<Receipt>, approval: Option<ApprovalDecision>,
    verification: Option<Evidence>, stop: Option<StopReceipt>, cost: int64, reason: string)

  datatype Command =
    | CommandInitializeWorkspace | CommandAdoptWorkspace | CommandBuildContext
    | CommandCallModel | CommandValidateTools | CommandExecuteEffect(effect: Effect)
    | CommandRequestApproval(effect: Effect, binding: ApprovalBinding)
    | CommandIngestResults | CommandVerify | CommandFinalize
    | CommandInspectEffect(effect: Effect) | CommandStopExecution | CommandPublishTerminal

  const SNAPSHOT_SCHEMA_VERSION: nat := 2

  function NewState(tenantId: string, runId: string, limits: Limits): State {
    State(None, SNAPSHOT_SCHEMA_VERSION, runId, tenantId, 1, StatusQueued, StageInitialize, NoStage,
          NO_LEASE, 0, 0, 0, None, [], None, "", VerificationUnverified, "", 0, 0, 0, 0, limits, "", NoStatus)
  }

  /** Dispatched to the runner and not yet settled by a receipt. */
  predicate Unsettled(effect: Option<Effect>) {
    effect.Some? && effect.value.status in {EffectInFlight, EffectUnknown}
  }
}
