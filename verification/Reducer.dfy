/** The deterministic run reducer (internal/runtime/reducer.go).  The source
    clones the snapshot and edits the clone; here each edit is a new value. */
module Reducer {
  import opened Domain
  import opened RunTypes
  import opened Progress

  datatype Outcome = Accepted(next: State, commands: seq<Command>) | Rejected(error: Error)

  const MAX_BATCH: nat := 128
  const MAX_ARGS_BYTES: nat := 256 * 1024

  // ----- snapshot validation ------------------------------------------------------

  function EffectError(e: Effect): Option<Error> {
    if !e.args.canonicalObject || !ValidId(e.id) || Blank(e.kind) || e.policyVersion == ""
       || |e.args.text| > MAX_ARGS_BYTES || e.status !in {EffectUnset, EffectPlanned}
       || e.dispatchEpoch != 0 || e.receiptRef != "" then Some(ErrInvalid)
    else if e.argsHash != e.args.sha256 then Some(ErrConflict)
    else None
  }

  /** First error of a batch scanned from the left; `seen` are earlier IDs. */
  function BatchError(effects: seq<Effect>, seen: set<string>, duplicate: Error): Option<Error> {
    if effects == [] then None
    else if EffectError(effects[0]).Some? then EffectError(effects[0])
    else if effects[0].id in seen then Some(duplicate)
    else BatchError(effects[1..], seen + {effects[0].id}, duplicate)
  }

  ghost predicate GoodBatch(effects: seq<Effect>) {
    && (forall i :: 0 <= i < |effects| ==> EffectError(effects[i]).None?)
    && (forall i, j :: 0 <= i < j < |effects| ==> effects[i].id != effects[j].id)
  }

  /** Effect `k` can follow the ones before it: well formed and not seen yet. */
  ghost predicate Follows(effects: seq<Effect>, seen: set<string>, k: nat)
    requires k < |effects|
  {
    && EffectError(effects[k]).None? && effects[k].id !in seen
    && forall i :: 0 <= i < k ==> effects[i].id != effects[k].id
  }

  /** `error` belongs to the first effect that cannot follow: its own defect, or else
      the caller's error for a repeated ID. */
  ghost predicate FirstFault(effects: seq<Effect>, seen: set<string>, duplicate: Error, k: nat, error: Error) {
    && k < |effects| && (forall i :: 0 <= i < k ==> Follows(effects, seen, i)) && !Follows(effects, seen, k)
    && error == if EffectError(effects[k]).Some? then EffectError(effects[k]).value else duplicate
  }

  lemma FollowsTail(effects: seq<Effect>, seen: set<string>, k: nat)
    requires 0 < k < |effects|
    ensures Follows(effects, seen, k) <==> Follows(effects[1..], seen + {effects[0].id}, k - 1)
  {
    hide EffectError;
    assert effects[1..][k - 1] == effects[k];
    assert forall i :: 0 < i < k ==> effects[1..][i - 1] == effects[i];
    if Follows(effects[1..], seen + {effects[0].id}, k - 1) {
      forall i | 0 <= i < k ensures effects[i].id != effects[k].id {
        if i > 0 {
          assert effects[1..][i - 1].id != effects[1..][k - 1].id;
        }
      }
    }
  }

  /** The scan reports exactly the first fault, and nothing exactly on good batches. */
  lemma {:induction false} BatchErrorMeaning(effects: seq<Effect>, seen: set<string>, duplicate: Error)
    ensures BatchError(effects, seen, duplicate).None?
            <==> GoodBatch(effects) && forall i :: 0 <= i < |effects| ==> effects[i].id !in seen
    ensures forall error :: BatchError(effects, seen, duplicate) == Some(error) <==> exists k :: FirstFault(effects, seen, duplicate, k, error)
  {
    var r := BatchError(effects, seen, duplicate);
    var k := BatchFault(effects, seen, duplicate);
    hide BatchError, EffectError;
    if r.None? {
      forall i, j | 0 <= i < j < |effects| ensures effects[i].id != effects[j].id {
        assert Follows(effects, seen, j);
      }
      forall i | 0 <= i < |effects| ensures EffectError(effects[i]).None? && effects[i].id !in seen {
        assert Follows(effects, seen, i);
      }
    } else {
      assert FirstFault(effects, seen, duplicate, k, r.value);
      assert !Follows(effects, seen, k);
    }
  }

  lemma {:induction false} BatchFault(effects: seq<Effect>, seen: set<string>, duplicate: Error) returns (k: nat)
    ensures var r := BatchError(effects, seen, duplicate);
      if r.Some? then FirstFault(effects, seen, duplicate, k, r.value)
      else forall i :: 0 <= i < |effects| ==> Follows(effects, seen, i)
    decreases |effects|
  {
    hide EffectError;
    k := 0;
    if effects != [] && EffectError(effects[0]).None? && effects[0].id !in seen {
      var rest := BatchFault(effects[1..], seen + {effects[0].id}, duplicate);
      k := rest + 1;
      forall i | 0 < i < |effects|
        ensures Follows(effects, seen, i) <==> Follows(effects[1..], seen + {effects[0].id}, i - 1)
      {
        FollowsTail(effects, seen, i);
      }
    }
  }

  /** The validation loop over a tool batch. */
  method CheckBatch(effects: seq<Effect>, duplicate: Error) returns (r: Option<Error>)
    ensures r == BatchError(effects, {}, duplicate)
  {
    var seen: set<string> := {};
    for i := 0 to |effects|
      invariant BatchError(effects, {}, duplicate) == BatchError(effects[i..], seen, duplicate)
    {
      assert effects[i..][0] == effects[i];
      assert effects[i..][1..] == effects[i + 1..];
      var invalid := EffectError(effects[i]);
      if invalid.Some? {
        return invalid;
      }
      if effects[i].id in seen {
        return Some(duplicate);
      }
      seen := seen + {effects[i].id};
    }
    return None;
  }

  predicate ApprovalMatches(a: ApprovalBinding, e: Effect, revision: uint64) {
    && a.effectId == e.id && a.argsHash == e.argsHash && a.workspaceRevision == revision
    && e.expectedRevision == revision && a.policyVersion == e.policyVersion
  }

  predicate ValidStop(s: State) {
    && (s.status.Terminal() ==> s.stage == StageStopped && !Unsettled(s.pendingEffect))
    && (!s.status.Terminal() ==> s.stage != StageStopped)
    && (s.status == StatusCancelRequested ==>
          s.stopTarget in {StatusCancelled, StatusFailed, StatusBudgetExhausted})
    && (s.status != StatusCancelRequested && s.stopTarget != NoStatus ==>
          s.status.Terminal() && s.stopTarget == s.status)
  }

  predicate ValidOwnership(s: State) {
    && (s.status == StatusRunning ==> s.lease.owner != "" && s.lease.epoch != 0)
    && (s.status == StatusQueued ==> s.lease.owner == "" && !Unsettled(s.pendingEffect))
    && (s.status == StatusNeedsReconciliation ==> s.stage in {StageReconcile, StageAdoptWorkspace})
    && (s.status == StatusWaitingApproval ==>
          && s.stage == StageApprovalGate && s.lease.owner == "" && s.pendingEffect.Some?
          && s.pendingEffect.value.status == EffectPlanned && s.pendingEffect.value.requiresApproval
          && s.approval.Some? && !s.approval.value.granted)
  }

  /** A pending effect with its execution fields erased must be a valid plan. */
  function Identity(e: Effect): Effect {
    e.(status := EffectPlanned, dispatchEpoch := 0, receiptRef := "")
  }

  predicate ValidLedgerEntry(s: State, e: Effect) {
    && e.expectedRevision != 0
    && match e.status
       case EffectPlanned => e.dispatchEpoch == 0 && e.receiptRef == ""
       case EffectInFlight => ValidUnresolved(s, e)
       case EffectUnknown => ValidUnresolved(s, e)
       case EffectSucceeded => e.dispatchEpoch != 0 && e.receiptRef != ""
       case EffectFailed => e.dispatchEpoch != 0 && e.receiptRef != ""
       case EffectCancelled => e.dispatchEpoch != 0 && e.receiptRef != ""
       case _ => false
  }

  predicate ValidUnresolved(s: State, e: Effect) {
    && e.dispatchEpoch != 0 && e.receiptRef == ""
    && (s.status == StatusCancelRequested
        || s.stage in {StageExecuteEffects, StageAdoptWorkspace, StageReconcile})
  }

  predicate ValidBindings(s: State) {
    && (s.approval.Some? ==>
          && s.pendingEffect.Some? && s.pendingEffect.value.requiresApproval && s.approval.value.version != 0
          && ApprovalMatches(s.approval.value, s.pendingEffect.value, s.workspaceRevision))
    && (s.status == StatusRunning && s.stage == StageExecuteEffects ==> Unsettled(s.pendingEffect))
    && (s.verification != VerificationUnverified ==>
          s.verificationReportRef != "" && s.verificationRevision == s.workspaceRevision)
  }

  /** `validateState`: the first error of a snapshot, or none. */
  function SnapshotError(s: State): Option<Error> {
    if (s.schemaVersion != 1 && s.schemaVersion != SNAPSHOT_SCHEMA_VERSION) || s.version == 0
       || s.status == NoStatus || s.stage == NoStage || s.cost < 0 || s.limits.maxCost < 0 then Some(ErrInvalid)
    else if !ValidProgressState(s) || !ValidId(s.runId) || !ValidId(s.tenantId) then Some(ErrInvalid)
    else if !ValidStop(s) || !ValidOwnership(s) || |s.remainingEffects| > MAX_BATCH then Some(ErrInvalid)
    else if BatchError(s.remainingEffects, {}, ErrInvalid).Some? then BatchError(s.remainingEffects, {}, ErrInvalid)
    else if s.pendingEffect.Some? && s.pendingEffect.value.id in (set e | e in s.remainingEffects :: e.id) then Some(ErrInvalid)
    else if s.pendingEffect.Some? && EffectError(Identity(s.pendingEffect.value)).Some? then EffectError(Identity(s.pendingEffect.value))
    else if s.pendingEffect.Some? && !ValidLedgerEntry(s, s.pendingEffect.value) then Some(ErrInvalid)
    else if !ValidBindings(s) then Some(ErrInvalid)
    else None
  }

  // ----- budgets, stops and scheduling -----------------------------------------------

  predicate BudgetReached(s: State, e: Event, model: bool, tool: bool) {
    || (s.limits.deadline != 0 && e.at >= s.limits.deadline)
    || (s.limits.maxCost > 0 && s.cost >= s.limits.maxCost)
    || (model && s.limits.maxModelRounds > 0 && s.modelRounds >= s.limits.maxModelRounds)
    || (tool && s.limits.maxToolCalls > 0 && s.toolCalls >= s.limits.maxToolCalls)
    || (model && (s.modelRounds == MAX_UINT64 || s.stepSeq == MAX_UINT64))
    || (tool && s.toolCalls == MAX_UINT64)
  }

  function Stop(s: State, target: RunStatus, reason: string): Outcome {
    Accepted(s.(stopTarget := target, status := StatusCancelRequested, failureReason := reason), [CommandStopExecution])
  }

  function Dispatch(s: State): Outcome
    requires s.pendingEffect.Some? && s.toolCalls < MAX_UINT64
  {
    var running := s.pendingEffect.value.(status := EffectInFlight, dispatchEpoch := s.lease.epoch);
    Accepted(s.(stage := StageExecuteEffects, pendingEffect := Some(running), toolCalls := s.toolCalls + 1),
             [CommandExecuteEffect(running)])
  }

  function Schedule(s: State, e: Event): Outcome {
    if s.remainingEffects == [] then Accepted(s.(stage := StageIngestResults), [CommandIngestResults])
    else if BudgetReached(s, e, false, true) then Stop(s, StatusBudgetExhausted, "tool budget reached")
    else
      var effect := s.remainingEffects[0].(expectedRevision := s.workspaceRevision, status := EffectPlanned);
      var planned := s.(remainingEffects := s.remainingEffects[1..], pendingEffect := Some(effect));
      if effect.requiresApproval then
        var binding := ApprovalBinding(effect.id, effect.argsHash, s.workspaceRevision, effect.policyVersion, 1, false);
        Accepted(planned.(approval := Some(binding), status := StatusWaitingApproval, stage := StageApprovalGate,
                          lease := s.lease.(owner := "", until := e.at)),
                 [CommandRequestApproval(effect, binding)])
      else Dispatch(planned)
  }

  function CommandForStage(s: State): Outcome
    requires s.stage == StageExecuteEffects ==> s.toolCalls < MAX_UINT64
  {
    match s.stage
    case StageBuildContext => Accepted(s, [CommandBuildContext])
    case StageModel => Accepted(s, [CommandCallModel])
    case StageValidateTools => Accepted(s, [CommandValidateTools])
    case StageIngestResults => Accepted(s, [CommandIngestResults])
    case StageVerify => Accepted(s, [CommandVerify])
    case StageFinalize => Accepted(s, [CommandFinalize])
    case StageExecuteEffects =>
      if s.pendingEffect.None? || s.pendingEffect.value.status != EffectPlanned then Rejected(ErrReconciliation)
      else if s.pendingEffect.value.requiresApproval
              && (s.approval.None? || !s.approval.value.granted
                  || !ApprovalMatches(s.approval.value, s.pendingEffect.value, s.workspaceRevision)) then Rejected(ErrConflict)
      else Dispatch(s)
    case _ => Rejected(ErrTransition)
  }

  // ----- one function per event branch -------------------------------------------------

  function Claim(s: State, e: Event): Outcome {
    if e.lease.None? || !e.lease.value.ValidAt(e.at) || e.lease.value.epoch <= s.lease.epoch
       || s.lease.ValidAt(e.at) || e.owner != e.lease.value.owner || e.epoch != e.lease.value.epoch then Rejected(ErrFenced)
    else if s.status !in {StatusQueued, StatusRunning, StatusNeedsReconciliation, StatusCancelRequested} then Rejected(ErrTransition)
    else
      var leased := s.(lease := e.lease.value);
      if s.status == StatusCancelRequested then Accepted(leased, [CommandStopExecution])
      else
        var owned := if s.status != StatusNeedsReconciliation then leased.(status := StatusRunning) else leased;
        if s.workspaceRevision != 0 then
          Accepted(owned.(resumeStage := if s.stage != StageAdoptWorkspace then s.stage else s.resumeStage,
                          stage := StageAdoptWorkspace), [CommandAdoptWorkspace])
        else if s.stage != StageInitialize || s.pendingEffect.Some? then Rejected(ErrInvalid)
        else Accepted(owned, [CommandInitializeWorkspace])
  }

  function CapacityRejected(s: State, e: Event): Outcome {
    if s.status != StatusRunning || s.stage != StageInitialize || s.workspaceRevision != 0 || s.stepSeq != 0
       || s.modelRounds != 0 || s.toolCalls != 0 || s.cost != 0 || s.outputRef != "" || s.pendingEffect.Some?
       || s.remainingEffects != [] || s.approval.Some? || s.resumeStage != NoStage then Rejected(ErrTransition)
    else if e.notBefore.None? || e.notBefore.value <= e.at then Rejected(ErrInvalid)
    else Accepted(s.(status := StatusQueued, lease := NO_LEASE.(epoch := s.lease.epoch)), [])
  }

  function Adopt(s: State, e: Event): Outcome {
    if s.stage != StageAdoptWorkspace || s.status !in {StatusRunning, StatusNeedsReconciliation} then Rejected(ErrTransition)
    else if e.stop.None? || !e.stop.value.noActiveOperations || e.stop.value.ref == ""
            || e.stop.value.workspaceRevision < s.workspaceRevision then Rejected(ErrUntrusted)
    else if Unsettled(s.pendingEffect) then
      Accepted(s.(reconciliationRevision := e.stop.value.workspaceRevision,
                  status := StatusNeedsReconciliation, stage := StageReconcile),
               [CommandInspectEffect(s.pendingEffect.value)])
    else if e.stop.value.workspaceRevision != s.workspaceRevision then
      Accepted(s.(status := StatusNeedsReconciliation, stage := StageReconcile,
                  failureReason := "workspace changed without a pending ledger effect"), [])
    else
      var resumed := s.(stage := s.resumeStage, resumeStage := NoStage);
      if resumed.stage == StageReconcile then Rejected(ErrReconciliation)
      else if BudgetReached(resumed, e, false, resumed.stage == StageExecuteEffects) then
        Stop(resumed, StatusBudgetExhausted, "budget reached while workspace was suspended")
      else CommandForStage(resumed)
  }

  predicate AtStage(s: State, stage: Stage) { s.status == StatusRunning && s.stage == stage }

  function WorkspaceReady(s: State, e: Event): Outcome {
    if !AtStage(s, StageInitialize) then Rejected(ErrTransition)
    else if e.outputRef == "" || e.workspaceRevision == 0 then Rejected(ErrInvalid)
    else Accepted(s.(workspaceRevision := e.workspaceRevision, outputRef := e.outputRef, stage := StageBuildContext),
                  [CommandBuildContext])
  }

  function ContextBuilt(s: State, e: Event): Outcome
    requires ValidProgressState(s)
  {
    if !AtStage(s, StageBuildContext) then Rejected(ErrTransition)
    else if e.outputRef == "" then Rejected(ErrInvalid)
    else match ObserveProgress(s, e)
      case Failure(error) => Rejected(error)
      case Success(n) =>
        if BudgetReached(n, e, true, false) then Stop(n, StatusBudgetExhausted, "model budget reached")
        else if n.progress.Some? && n.limits.maxNoProgressBatches > 0
                && n.progress.value.repeatedBatches >= n.limits.maxNoProgressBatches then
          Stop(n, StatusBudgetExhausted, "repeated_no_progress")
        else Accepted(n.(outputRef := e.outputRef, stage := StageModel, modelRounds := n.modelRounds + 1,
                         stepSeq := n.stepSeq + 1), [CommandCallModel])
  }

  function ModelCompleted(s: State, e: Event): Outcome {
    if !AtStage(s, StageModel) then Rejected(ErrTransition)
    else if !e.complete || e.outputRef == "" then Rejected(ErrInvalid)
    else match MoneyAdd(s.cost, e.cost)
      case Failure(error) => Rejected(error)
      case Success(cost) =>
        var n := s.(cost := cost, outputRef := e.outputRef);
        if BudgetReached(n, e, false, false) then Stop(n, StatusBudgetExhausted, "cost or runtime budget reached")
        else if e.finish then Accepted(n.(stage := StageVerify), [CommandVerify])
        else Accepted(n.(stage := StageValidateTools), [CommandValidateTools])
  }

  function ToolsValidated(s: State, e: Event): Outcome {
    if !AtStage(s, StageValidateTools) then Rejected(ErrTransition)
    else if e.outputRef == "" || !e.complete || e.effects == [] || |e.effects| > MAX_BATCH then Rejected(ErrInvalid)
    else match BatchError(e.effects, {}, ErrConflict)
      case Some(error) => Rejected(error)
      case None => Schedule(s.(outputRef := e.outputRef, remainingEffects := e.effects), e)
  }

  function SettleEffect(s: State, e: Event, reconciliation: bool): Outcome {
    if !Unsettled(s.pendingEffect) || e.receipt.None? then Rejected(ErrTransition)
    else
      var r, effect := e.receipt.value, s.pendingEffect.value;
      if r.effectId != effect.id || r.argsHash != effect.argsHash || r.epoch != effect.dispatchEpoch
         || r.beforeRevision != effect.expectedRevision || r.afterRevision < r.beforeRevision || r.ref == ""
         || !r.settled || (s.reconciliationRevision != 0 && r.afterRevision != s.reconciliationRevision) then Rejected(ErrConflict)
      else if r.status !in {EffectSucceeded, EffectFailed, EffectCancelled} then Rejected(ErrReconciliation)
      else if !reconciliation && r.epoch != s.lease.epoch then Rejected(ErrFenced)
      else
        var n := s.(pendingEffect := Some(effect.(status := r.status, receiptRef := r.ref)),
                    workspaceRevision := r.afterRevision, reconciliationRevision := 0, outputRef := r.ref,
                    verification := VerificationUnverified, verificationReportRef := "", verificationRevision := 0,
                    approval := None);
        if s.status == StatusCancelRequested then Accepted(n, [CommandStopExecution])
        else
          Schedule(n.(status := StatusRunning, pendingEffect := None, failureReason := "",
                      remainingEffects := if r.status != EffectSucceeded then [] else n.remainingEffects), e)
  }

  function EffectCompleted(s: State, e: Event): Outcome {
    if !AtStage(s, StageExecuteEffects) then Rejected(ErrTransition) else SettleEffect(s, e, false)
  }

  function EffectUncertain(s: State, e: Event): Outcome {
    if !AtStage(s, StageExecuteEffects) || !Unsettled(s.pendingEffect) then Rejected(ErrTransition)
    else
      var unknown := s.pendingEffect.value.(status := EffectUnknown);
      Accepted(s.(pendingEffect := Some(unknown), status := StatusNeedsReconciliation,
                  resumeStage := StageExecuteEffects, stage := StageReconcile, failureReason := e.reason),
               [CommandInspectEffect(unknown)])
  }

  function ResultsIngested(s: State, e: Event): Outcome {
    if !AtStage(s, StageIngestResults) then Rejected(ErrTransition)
    else if e.outputRef == "" then Rejected(ErrInvalid)
    else Accepted(s.(outputRef := e.outputRef, stage := StageBuildContext), [CommandBuildContext])
  }

  function DecideApproval(s: State, e: Event): Outcome {
    if s.status != StatusWaitingApproval || s.stage != StageApprovalGate || s.approval.None?
       || s.pendingEffect.None? || e.approval.None? then Rejected(ErrTransition)
    else
      var binding := e.approval.value.binding;
      if binding != s.approval.value || binding.granted
         || !ApprovalMatches(s.approval.value, s.pendingEffect.value, s.workspaceRevision) then Rejected(ErrConflict)
      else if !e.approval.value.approve then Stop(s, StatusFailed, "operation approval denied")
      else if s.approval.value.version == MAX_UINT64 then Rejected(ErrOverflow)
      else Accepted(s.(approval := Some(binding.(granted := true, version := binding.version + 1)),
                       status := StatusQueued, stage := StageExecuteEffects), [])
  }

  function VerificationCompleted(s: State, e: Event): Outcome {
    if !AtStage(s, StageVerify) then Rejected(ErrTransition)
    else if e.verification.None? || !e.verification.value.trusted || e.verification.value.reportRef == "" then Rejected(ErrUntrusted)
    else
      var v := e.verification.value;
      if v.workspaceRevision != s.workspaceRevision then Rejected(ErrConflict)
      else
        var n := s.(verificationReportRef := v.reportRef, verificationRevision := v.workspaceRevision);
        if !v.regressionPassed || (v.baselineTargetFailed && !v.targetPassed) then
          Accepted(n.(verification := VerificationUnverified, stage := StageBuildContext, outputRef := v.reportRef),
                   [CommandBuildContext])
        else
          Accepted(n.(verification := if v.baselineTargetFailed && v.targetPassed then VerificationVerified
                                      else VerificationRegressionOnly, stage := StageFinalize), [CommandFinalize])
  }

  function Finalized(s: State, e: Event): Outcome {
    if !AtStage(s, StageFinalize) then Rejected(ErrTransition)
    else if e.outputRef == "" || s.verificationReportRef == "" || s.verificationRevision != s.workspaceRevision
            || s.verification == VerificationUnverified || Unsettled(s.pendingEffect) || s.remainingEffects != [] then Rejected(ErrInvalid)
    else Accepted(s.(outputRef := e.outputRef, status := StatusCompleted, stage := StageStopped), [CommandPublishTerminal])
  }

  function ConfirmStop(s: State, e: Event): Outcome {
    if s.status != StatusCancelRequested || s.stopTarget == NoStatus || e.stop.None? || !e.stop.value.noActiveOperations
       || e.stop.value.ref == "" || e.stop.value.workspaceRevision < s.workspaceRevision then Rejected(ErrUntrusted)
    else if Unsettled(s.pendingEffect) then Rejected(ErrReconciliation)
    else
      var stop := e.stop.value;
      var n := if s.workspaceRevision != stop.workspaceRevision
               then s.(verification := VerificationUnverified, verificationReportRef := "", verificationRevision := 0) else s;
      Accepted(n.(workspaceRevision := stop.workspaceRevision, outputRef := stop.ref, status := s.stopTarget,
                  stage := StageStopped, remainingEffects := [], approval := None), [CommandPublishTerminal])
  }

  function ResumeRequested(s: State, e: Event): Outcome {
    if s.status != StatusNeedsReconciliation then Rejected(ErrTransition)
    else if s.lease.ValidAt(e.at) then Rejected(ErrConflict)
    else Accepted(s.(lease := s.lease.(owner := "", until := e.at)), [])
  }

  function Reconciled(s: State, e: Event): Outcome {
    if s.status !in {StatusNeedsReconciliation, StatusCancelRequested} then Rejected(ErrTransition)
    else if s.status == StatusNeedsReconciliation && s.stage != StageReconcile then Rejected(ErrTransition)
    else SettleEffect(s, e, true)
  }

  function RunFailed(s: State, e: Event): Outcome {
    if Blank(e.reason) then Rejected(ErrInvalid) else Stop(s, StatusFailed, e.reason)
  }

  // ----- the reducer ---------------------------------------------------------------------

  predicate ControlEvent(k: EventKind) {
    k in {EventCancelRequested, EventApprovalDecided, EventResumeRequested}
  }

  predicate AllowedDuringStop(k: EventKind) {
    k in {EventClaimed, EventCancelRequested, EventCancellationConfirmed, EventReconciled}
  }

  predicate AllowedDuringReconciliation(k: EventKind) {
    k in {EventClaimed, EventCancelRequested, EventResumeRequested, EventReconciled, EventWorkspaceAdopted}
  }

  /** The guards every event passes before its own branch runs. */
  function AdmissionError(s: State, e: Event): Option<Error> {
    if e.expectedVersion != s.version then Some(ErrConflict)
    else if s.status.Terminal() then Some(ErrTerminal)
    else if s.version == MAX_UINT64 || e.at == 0 || e.cost < 0 then Some(ErrInvalid)
    else if !ControlEvent(e.kind) && e.kind != EventClaimed
            && (e.owner != s.lease.owner || e.epoch != s.lease.epoch || !s.lease.ValidAt(e.at)) then Some(ErrFenced)
    else if s.status == StatusCancelRequested && !AllowedDuringStop(e.kind) then Some(ErrTransition)
    else if s.status == StatusNeedsReconciliation && !AllowedDuringReconciliation(e.kind) then Some(ErrReconciliation)
    else if s.status == StatusWaitingApproval && e.kind !in {EventApprovalDecided, EventCancelRequested} then Some(ErrTransition)
    else None
  }

  function Branch(s: State, e: Event): Outcome
    requires ValidProgressState(s)
  {
    match e.kind
    case EventClaimed => Claim(s, e)
    case EventCapacityRejected => CapacityRejected(s, e)
    case EventWorkspaceReady => WorkspaceReady(s, e)
    case EventWorkspaceAdopted => Adopt(s, e)
    case EventContextBuilt => ContextBuilt(s, e)
    case EventModelCompleted => ModelCompleted(s, e)
    case EventToolsValidated => ToolsValidated(s, e)
    case EventEffectCompleted => EffectCompleted(s, e)
    case EventEffectUncertain => EffectUncertain(s, e)
    case EventResultsIngested => ResultsIngested(s, e)
    case EventApprovalDecided => DecideApproval(s, e)
    case EventVerificationCompleted => VerificationCompleted(s, e)
    case EventFinalized => Finalized(s, e)
    case EventCancelRequested => Stop(s, StatusCancelled, "cancellation requested")
    case EventCancellationConfirmed => ConfirmStop(s, e)
    case EventResumeRequested => ResumeRequested(s, e)
    case EventReconciled => Reconciled(s, e)
    case EventFailed => RunFailed(s, e)
    case EventBudgetReached => Stop(s, StatusBudgetExhausted, e.reason)
    case EventUnrecognized => Rejected(ErrInvalid)
  }

  /** A repeated cancellation is acknowledged without a new version. */
  predicate RepeatedCancel(s: State, e: Event) {
    e.kind == EventCancelRequested && s.status == StatusCancelRequested
  }

  function Transition(s: State, e: Event): Outcome {
    if SnapshotError(s).Some? then Rejected(SnapshotError(s).value)
    else if AdmissionError(s, e).Some? then Rejected(AdmissionError(s, e).value)
    else if RepeatedCancel(s, e) then Accepted(s, [])
    else match Branch(s, e)
      case Rejected(error) => Rejected(error)
      case Accepted(n, commands) =>
        var next := n.(version := s.version + 1);
        if SnapshotError(next).Some? then Rejected(SnapshotError(next).value) else Accepted(next, commands)
  }
}
