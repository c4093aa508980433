/** The workflow of a run as a relation: which events are accepted, and where each one
    leads, said of the snapshot and the event field by field
    (internal/runtime/reducer.go). */
module ReducerRoutes {
  import opened Domain
  import opened RunTypes
  import opened Progress
  import opened Reducer
  import opened ReducerInvariant
  import opened ReducerRuns

  // ----- budgets -------------------------------------------------------------------------------

  ghost predicate Late(l: Limits, at: Instant) { l.deadline != 0 && l.deadline <= at }

  ghost predicate Dear(l: Limits, cost: int) { 0 < l.maxCost <= cost }

  ghost predicate RoundsUsed(s: State) {
    0 < s.limits.maxModelRounds <= s.modelRounds || s.modelRounds == MAX_UINT64 || s.stepSeq == MAX_UINT64
  }

  ghost predicate CallsUsed(s: State) { 0 < s.limits.maxToolCalls <= s.toolCalls || s.toolCalls == MAX_UINT64 }

  // ----- parts of a route ---------------------------------------------------------------------

  /** The run is told to stop, and otherwise left as it was. */
  ghost predicate StopsAt(s: State, n: State, c: seq<Command>, target: RunStatus, reason: string) {
    n == s.(status := StatusCancelRequested, stopTarget := target, failureReason := reason) && c == [CommandStopExecution]
  }

  /** The effect leaves for the runner under the current lease. */
  ghost predicate Leaves(s: State, n: State, c: seq<Command>, f: Effect) {
    && s.toolCalls < MAX_UINT64
    && n == s.(stage := StageExecuteEffects, toolCalls := s.toolCalls + 1,
               pendingEffect := Some(f.(status := EffectInFlight, dispatchEpoch := s.lease.epoch)))
    && n.pendingEffect.Some? && c == [CommandExecuteEffect(n.pendingEffect.value)]
  }

  /** The next effect of the batch: ingest when there is none, stop when no call is left,
      ask where approval is needed, else dispatch. */
  ghost predicate Continues(s: State, at: Instant, n: State, c: seq<Command>) {
    if s.remainingEffects == [] then n == s.(stage := StageIngestResults) && c == [CommandIngestResults]
    else if Late(s.limits, at) || Dear(s.limits, s.cost) || CallsUsed(s) then StopsAt(s, n, c, StatusBudgetExhausted, "tool budget reached")
    else
      var f := s.remainingEffects[0].(expectedRevision := s.workspaceRevision, status := EffectPlanned);
      var taken := s.(remainingEffects := s.remainingEffects[1..], pendingEffect := Some(f));
      if !f.requiresApproval then Leaves(taken, n, c, f)
      else
        && n.approval.Some? && n.approval.value == ApprovalBinding(f.id, f.argsHash, s.workspaceRevision, f.policyVersion, 1, false)
        && n == taken.(status := StatusWaitingApproval, stage := StageApprovalGate, approval := n.approval,
                       lease := Lease("", s.lease.epoch, at))
        && c == [CommandRequestApproval(f, n.approval.value)]
  }

  /** The command of a stage that is not an effect. */
  ghost function StageCommand(stage: Stage): Option<Command> {
    match stage
    case StageInitialize => Some(CommandInitializeWorkspace)
    case StageAdoptWorkspace => Some(CommandAdoptWorkspace)
    case StageBuildContext => Some(CommandBuildContext)
    case StageModel => Some(CommandCallModel)
    case StageValidateTools => Some(CommandValidateTools)
    case StageIngestResults => Some(CommandIngestResults)
    case StageVerify => Some(CommandVerify)
    case StageFinalize => Some(CommandFinalize)
    case _ => None
  }

  /** A receipt that answers exactly the dispatched effect. */
  ghost predicate Answers(s: State, r: Receipt) {
    && Unsettled(s.pendingEffect) && r.settled && r.ref != ""
    && (r.status == EffectSucceeded || r.status == EffectFailed || r.status == EffectCancelled)
    && var f := s.pendingEffect.value;
      && r.effectId == f.id && r.argsHash == f.argsHash && r.epoch == f.dispatchEpoch && r.beforeRevision == f.expectedRevision
      && r.beforeRevision <= r.afterRevision && (s.reconciliationRevision == 0 || r.afterRevision == s.reconciliationRevision)
  }

  /** What an accepted receipt leads to: the effect is settled at its revision, any
      verdict is void, and unless the run is stopping the batch goes on after a success
      and is dropped after anything else. */
  ghost predicate SettlesBy(s: State, r: Receipt, at: Instant, n: State, c: seq<Command>)
    requires s.pendingEffect.Some?
  {
    var settled := s.(workspaceRevision := r.afterRevision, reconciliationRevision := 0, outputRef := r.ref, approval := None,
                      verification := VerificationUnverified, verificationReportRef := "", verificationRevision := 0);
    if s.status == StatusCancelRequested then
      n == settled.(pendingEffect := Some(s.pendingEffect.value.(status := r.status, receiptRef := r.ref))) && c == [CommandStopExecution]
    else
      Continues(settled.(status := StatusRunning, failureReason := "", pendingEffect := None,
                         remainingEffects := if r.status == EffectSucceeded then s.remainingEffects else []), at, n, c)
  }

  // ----- which events a branch takes ---------------------------------------------------------------

  ghost predicate Running(s: State, stage: Stage) { s.status == StatusRunning && s.stage == stage }

  /** The progress frame fits the snapshot. */
  ghost predicate FrameFits(s: State, e: Event) {
    s.limits.maxNoProgressBatches == 0
    || (&& (e.progress.Some? || s.stepSeq == 0) && s.pendingEffect.None? && s.remainingEffects == []
        && (e.progress.None? ==> s.progress.None?)
        && (e.progress.Some? ==>
              var f := e.progress.value;
              && (f.contextRef == "" || f.contextRef == e.outputRef) && f.policyVersion == 1 && f.stepSeq == s.stepSeq
              && f.messageSeq <= 64 && |f.observations| <= 130
              && (s.progress.Some? ==> s.progress.value.messageSeq <= f.messageSeq && s.progress.value.lastCheckedStep < f.stepSeq)
              && if s.stepSeq == 0 then f.attemptId == "" && f.observations == [] && f.verificationRef == ""
                 else f.attemptId != "" && f.observations != [] && e.progressRef != "" && s.progress.Some? && ValidObservations(f.observations)))
  }

  ghost predicate Takes(s: State, e: Event) {
    match e.kind
    case EventClaimed =>
      && e.lease.Some? && e.lease.value.ValidAt(e.at) && e.lease.value.owner == e.owner && e.lease.value.epoch == e.epoch
      && s.lease.epoch < e.epoch && !s.lease.ValidAt(e.at)
      && (s.status == StatusCancelRequested
          || ((s.status == StatusQueued || s.status == StatusRunning || s.status == StatusNeedsReconciliation)
              && (s.workspaceRevision != 0 || (s.stage == StageInitialize && s.pendingEffect.None?))))
    case EventCapacityRejected =>
      && Running(s, StageInitialize) && s.workspaceRevision == 0 && s.stepSeq == 0 && s.modelRounds == 0 && s.toolCalls == 0
      && s.cost == 0 && s.outputRef == "" && s.pendingEffect.None? && s.remainingEffects == [] && s.approval.None? && s.resumeStage == NoStage
      && e.notBefore.Some? && e.at < e.notBefore.value
    case EventWorkspaceReady => Running(s, StageInitialize) && e.outputRef != "" && e.workspaceRevision != 0
    case EventWorkspaceAdopted =>
      && s.stage == StageAdoptWorkspace && (s.status == StatusRunning || s.status == StatusNeedsReconciliation)
      && e.stop.Some? && e.stop.value.noActiveOperations && e.stop.value.ref != "" && s.workspaceRevision <= e.stop.value.workspaceRevision
      && (Unsettled(s.pendingEffect) || e.stop.value.workspaceRevision != s.workspaceRevision || Resumes(s, e.at))
    case EventContextBuilt => Running(s, StageBuildContext) && e.outputRef != "" && FrameFits(s, e)
    case EventModelCompleted => Running(s, StageModel) && e.complete && e.outputRef != "" && 0 <= s.cost && 0 <= e.cost && s.cost + e.cost <= MAX_INT64
    case EventToolsValidated => Running(s, StageValidateTools) && e.outputRef != "" && e.complete && 1 <= |e.effects| <= 128 && GoodBatch(e.effects)
    case EventEffectCompleted => Running(s, StageExecuteEffects) && e.receipt.Some? && Answers(s, e.receipt.value) && e.receipt.value.epoch == s.lease.epoch
    case EventEffectUncertain => Running(s, StageExecuteEffects) && Unsettled(s.pendingEffect)
    case EventResultsIngested => Running(s, StageIngestResults) && e.outputRef != ""
    case EventApprovalDecided =>
      && s.status == StatusWaitingApproval && s.stage == StageApprovalGate && s.approval.Some? && s.pendingEffect.Some? && e.approval.Some?
      && e.approval.value.binding == s.approval.value && !s.approval.value.granted && (e.approval.value.approve ==> s.approval.value.version < MAX_UINT64)
      && Binds(s.approval.value, s.pendingEffect.value, s.workspaceRevision)
    case EventVerificationCompleted =>
      && Running(s, StageVerify) && e.verification.Some? && e.verification.value.trusted && e.verification.value.reportRef != ""
      && e.verification.value.workspaceRevision == s.workspaceRevision
    case EventFinalized =>
      && Running(s, StageFinalize) && e.outputRef != "" && s.verificationReportRef != "" && s.verificationRevision == s.workspaceRevision
      && s.verification != VerificationUnverified && !Unsettled(s.pendingEffect) && s.remainingEffects == []
    case EventCancelRequested => true
    case EventCancellationConfirmed =>
      && s.status == StatusCancelRequested && s.stopTarget != NoStatus && !Unsettled(s.pendingEffect)
      && e.stop.Some? && e.stop.value.noActiveOperations && e.stop.value.ref != "" && s.workspaceRevision <= e.stop.value.workspaceRevision
    case EventResumeRequested => s.status == StatusNeedsReconciliation && !s.lease.ValidAt(e.at)
    case EventReconciled =>
      && (s.status == StatusCancelRequested || (s.status == StatusNeedsReconciliation && s.stage == StageReconcile))
      && e.receipt.Some? && Answers(s, e.receipt.value)
    case EventFailed => !Blank(e.reason)
    case EventBudgetReached => true
    case EventUnrecognized => false
  }

  /** The approval names this effect at this revision. */
  ghost predicate Binds(a: ApprovalBinding, f: Effect, revision: uint64) {
    a.effectId == f.id && a.argsHash == f.argsHash && a.policyVersion == f.policyVersion
    && a.workspaceRevision == revision == f.expectedRevision
  }

  /** An adopted workspace lets its stage go on. */
  ghost predicate Resumes(s: State, at: Instant) {
    && s.resumeStage != StageReconcile
    && (|| Late(s.limits, at) || Dear(s.limits, s.cost) || (s.resumeStage == StageExecuteEffects && CallsUsed(s))
        || (s.resumeStage != StageInitialize && s.resumeStage != StageAdoptWorkspace && StageCommand(s.resumeStage).Some?)
        || (s.resumeStage == StageExecuteEffects && s.pendingEffect.Some? && s.pendingEffect.value.status == EffectPlanned
            && (s.pendingEffect.value.requiresApproval ==>
                  s.approval.Some? && s.approval.value.granted && Binds(s.approval.value, s.pendingEffect.value, s.workspaceRevision))))
  }

  // ----- where an accepted event leads ------------------------------------------------------------------

  /** The progress record after a context: none without a limit, empty windows at the
      first step, else the batch observed; the count of repeats restarts on a new message,
      novelty or doubt and otherwise grows by one. */
  ghost predicate Progressed(s: State, e: Event, after: Option<ProgressState>)
    requires s.progress.Some? ==> ValidWindow(s.progress.value.recentTrees) && ValidWindow(s.progress.value.recentEvidence)
  {
    if s.limits.maxNoProgressBatches == 0 then after == s.progress
    else if s.stepSeq == 0 then
      after == Some(ProgressState(0, if e.progress.Some? then e.progress.value.messageSeq else 0, 0, Initial, [], []))
    else
      && after.Some? && s.progress.Some? && e.progress.Some?
      && var p, q, f := s.progress.value, after.value, e.progress.value;
        var l := LogAll(Logs(p.recentTrees, p.recentEvidence), f.observations);
        && q.lastCheckedStep == f.stepSeq && q.messageSeq == f.messageSeq && SuffixOf(q.recentTrees, q.recentEvidence, l)
        && var novel, doubt := Novel(p, f.observations), exists i :: 0 <= i < |f.observations| && f.observations[i].indeterminate;
          && q.repeatedBatches == (if p.messageSeq < f.messageSeq || novel || doubt then 0 else p.repeatedBatches + 1)
          && q.classification == (if p.messageSeq < f.messageSeq then Message else if novel then NewEvidence
                                  else if doubt then Indeterminate else Repeated)
  }

  /** The batch adds a first observation beyond the very first before-tree. */
  ghost predicate Novel(p: ProgressState, os: seq<Observation>) {
    var l := LogAll(Logs(p.recentTrees, p.recentEvidence), os);
    |l.trees| + |l.evidence| > |p.recentTrees| + |p.recentEvidence| + if p.recentTrees == [] && os != [] then 1 else 0
  }

  ghost predicate Exhausted(p: Option<ProgressState>, l: Limits) {
    p.Some? && 0 < l.maxNoProgressBatches <= p.value.repeatedBatches
  }

  ghost predicate Route(s: State, e: Event, n: State, c: seq<Command>)
    requires ValidProgressState(s) && Takes(s, e)
  {
    match e.kind
    case EventClaimed =>
      var leased := s.(lease := e.lease.value);
      if s.status == StatusCancelRequested then n == leased && c == [CommandStopExecution]
      else
        && c == [if s.workspaceRevision == 0 then CommandInitializeWorkspace else CommandAdoptWorkspace]
        && n == leased.(
             status := if s.status == StatusNeedsReconciliation then s.status else StatusRunning,
             stage := if s.workspaceRevision == 0 then s.stage else StageAdoptWorkspace,
             resumeStage := if s.workspaceRevision == 0 || s.stage == StageAdoptWorkspace then s.resumeStage else s.stage)
    case EventCapacityRejected => n == s.(status := StatusQueued, lease := Lease("", s.lease.epoch, 0)) && c == []
    case EventWorkspaceReady =>
      n == s.(workspaceRevision := e.workspaceRevision, outputRef := e.outputRef, stage := StageBuildContext) && c == [CommandBuildContext]
    case EventWorkspaceAdopted => AdoptionRoute(s, e, n, c)
    case EventContextBuilt =>
      && Progressed(s, e, n.progress)
      && var seen := s.(progress := n.progress);
        if Late(s.limits, e.at) || Dear(s.limits, s.cost) || RoundsUsed(s) then StopsAt(seen, n, c, StatusBudgetExhausted, "model budget reached")
        else if Exhausted(n.progress, s.limits) then StopsAt(seen, n, c, StatusBudgetExhausted, "repeated_no_progress")
        else
          && s.modelRounds < MAX_UINT64 && s.stepSeq < MAX_UINT64 && c == [CommandCallModel]
          && n == seen.(outputRef := e.outputRef, stage := StageModel, modelRounds := s.modelRounds + 1, stepSeq := s.stepSeq + 1)
    case EventModelCompleted =>
      var paid := s.(cost := s.cost + e.cost, outputRef := e.outputRef);
      if Late(s.limits, e.at) || Dear(s.limits, s.cost + e.cost) then StopsAt(paid, n, c, StatusBudgetExhausted, "cost or runtime budget reached")
      else n == paid.(stage := if e.finish then StageVerify else StageValidateTools) && c == [if e.finish then CommandVerify else CommandValidateTools]
    case EventToolsValidated => Continues(s.(outputRef := e.outputRef, remainingEffects := e.effects), e.at, n, c)
    case EventEffectCompleted => SettlesBy(s, e.receipt.value, e.at, n, c)
    case EventEffectUncertain =>
      var f := s.pendingEffect.value.(status := EffectUnknown);
      && n == s.(status := StatusNeedsReconciliation, stage := StageReconcile, resumeStage := StageExecuteEffects,
                 failureReason := e.reason, pendingEffect := Some(f))
      && c == [CommandInspectEffect(f)]
    case EventResultsIngested => n == s.(outputRef := e.outputRef, stage := StageBuildContext) && c == [CommandBuildContext]
    case EventApprovalDecided =>
      if !e.approval.value.approve then StopsAt(s, n, c, StatusFailed, "operation approval denied")
      else
        && c == [] && s.approval.value.version < MAX_UINT64
        && n == s.(status := StatusQueued, stage := StageExecuteEffects,
                   approval := Some(s.approval.value.(granted := true, version := s.approval.value.version + 1)))
    case EventVerificationCompleted =>
      var v := e.verification.value;
      var judged := s.(verificationReportRef := v.reportRef, verificationRevision := s.workspaceRevision);
      if v.regressionPassed && (v.targetPassed || !v.baselineTargetFailed) then
        n == judged.(verification := if v.baselineTargetFailed then VerificationVerified else VerificationRegressionOnly, stage := StageFinalize)
        && c == [CommandFinalize]
      else
        n == judged.(verification := VerificationUnverified, stage := StageBuildContext, outputRef := v.reportRef) && c == [CommandBuildContext]
    case EventFinalized => n == s.(outputRef := e.outputRef, status := StatusCompleted, stage := StageStopped) && c == [CommandPublishTerminal]
    case EventCancelRequested => StopsAt(s, n, c, StatusCancelled, "cancellation requested")
    case EventCancellationConfirmed =>
      var r := e.stop.value.workspaceRevision;
      var moved := if r == s.workspaceRevision then s
                   else s.(workspaceRevision := r, verification := VerificationUnverified, verificationReportRef := "", verificationRevision := 0);
      n == moved.(outputRef := e.stop.value.ref, status := s.stopTarget, stage := StageStopped, remainingEffects := [], approval := None)
      && c == [CommandPublishTerminal]
    case EventResumeRequested => n == s.(lease := Lease("", s.lease.epoch, e.at)) && c == []
    case EventReconciled => SettlesBy(s, e.receipt.value, e.at, n, c)
    case EventFailed => StopsAt(s, n, c, StatusFailed, e.reason)
    case EventBudgetReached => StopsAt(s, n, c, StatusBudgetExhausted, e.reason)
    case EventUnrecognized => false
  }

  /** An adopted workspace: inspect a dispatched effect, park a changed workspace,
      otherwise go on where the run was suspended, unless a budget is spent. */
  ghost predicate AdoptionRoute(s: State, e: Event, n: State, c: seq<Command>)
    requires e.stop.Some?
  {
    var parked := s.(status := StatusNeedsReconciliation, stage := StageReconcile);
    if Unsettled(s.pendingEffect) then
      n == parked.(reconciliationRevision := e.stop.value.workspaceRevision) && c == [CommandInspectEffect(s.pendingEffect.value)]
    else if e.stop.value.workspaceRevision != s.workspaceRevision then
      n == parked.(failureReason := "workspace changed without a pending ledger effect") && c == []
    else
      var back := s.(stage := s.resumeStage, resumeStage := NoStage);
      if Late(s.limits, e.at) || Dear(s.limits, s.cost) || (s.resumeStage == StageExecuteEffects && CallsUsed(s)) then
        StopsAt(back, n, c, StatusBudgetExhausted, "budget reached while workspace was suspended")
      else if s.resumeStage == StageExecuteEffects then s.pendingEffect.Some? && Leaves(back, n, c, s.pendingEffect.value)
      else n == back && StageCommand(s.resumeStage).Some? && c == [StageCommand(s.resumeStage).value]
  }

  // ----- each branch follows its route --------------------------------------------------------------------

  ghost predicate Routed(s: State, e: Event, r: Outcome)
    requires ValidProgressState(s)
  {
    (r.Accepted? <==> Takes(s, e)) && (r.Accepted? ==> Route(s, e, r.next, r.commands))
  }

  lemma BudgetMeans(s: State, e: Event)
    ensures BudgetReached(s, e, false, false) <==> Late(s.limits, e.at) || Dear(s.limits, s.cost)
    ensures BudgetReached(s, e, true, false) <==> Late(s.limits, e.at) || Dear(s.limits, s.cost) || RoundsUsed(s)
    ensures BudgetReached(s, e, false, true) <==> Late(s.limits, e.at) || Dear(s.limits, s.cost) || CallsUsed(s)
  {}

  lemma ScheduleRoutes(s: State, e: Event)
    ensures Schedule(s, e).Accepted? && Continues(s, e.at, Schedule(s, e).next, Schedule(s, e).commands)
  {
    hide BudgetReached, Late, Dear;
    BudgetMeans(s, e);
  }

  lemma ClaimRoutes(s: State, e: Event)
    requires ValidProgressState(s) && e.kind == EventClaimed
    ensures Routed(s, e, Claim(s, e))
  {
    hide ValidProgressState, Blank;
  }

  lemma SettleRoutes(s: State, e: Event, reconciliation: bool)
    ensures var r := SettleEffect(s, e, reconciliation);
      && (r.Accepted? <==> e.receipt.Some? && Answers(s, e.receipt.value) && (reconciliation || e.receipt.value.epoch == s.lease.epoch))
      && (r.Accepted? ==> SettlesBy(s, e.receipt.value, e.at, r.next, r.commands))
  {
    hide Schedule, Continues;
    if Unsettled(s.pendingEffect) && e.receipt.Some? {
      var r, f := e.receipt.value, s.pendingEffect.value;
      ScheduleRoutes(s.(workspaceRevision := r.afterRevision, reconciliationRevision := 0, outputRef := r.ref, approval := None,
                        verification := VerificationUnverified, verificationReportRef := "", verificationRevision := 0,
                        status := StatusRunning, pendingEffect := None, failureReason := "",
                        remainingEffects := if r.status != EffectSucceeded then [] else s.remainingEffects), e);
    }
  }

  lemma AdoptRoutes(s: State, e: Event)
    requires ValidProgressState(s) && e.kind == EventWorkspaceAdopted
    ensures Routed(s, e, Adopt(s, e))
  {
    hide ValidProgressState, BudgetReached, Late, Dear;
    BudgetMeans(s.(stage := s.resumeStage, resumeStage := NoStage), e);
  }

  lemma ModelRoutes(s: State, e: Event)
    requires ValidProgressState(s) && e.kind == EventModelCompleted
    ensures Routed(s, e, ModelCompleted(s, e))
  {
    hide ValidProgressState, BudgetReached, Late, Dear;
    if 0 <= s.cost && 0 <= e.cost && s.cost + e.cost <= MAX_INT64 {
      BudgetMeans(s.(cost := s.cost + e.cost, outputRef := e.outputRef), e);
    }
  }

  lemma ToolsRoutes(s: State, e: Event)
    requires ValidProgressState(s) && e.kind == EventToolsValidated
    ensures Routed(s, e, ToolsValidated(s, e))
  {
    hide ValidProgressState, Schedule, Continues, BatchError, GoodBatch;
    BatchErrorMeaning(e.effects, {}, ErrConflict);
    ScheduleRoutes(s.(outputRef := e.outputRef, remainingEffects := e.effects), e);
  }

  lemma ReceiptRoutes(s: State, e: Event)
    requires ValidProgressState(s) && (e.kind == EventEffectCompleted || e.kind == EventReconciled)
    ensures Routed(s, e, if e.kind == EventEffectCompleted then EffectCompleted(s, e) else Reconciled(s, e))
  {
    hide ValidProgressState, SettleEffect, SettlesBy, Answers;
    SettleRoutes(s, e, e.kind == EventReconciled);
    AnswersNeedsPending(s, e);
  }

  lemma AnswersNeedsPending(s: State, e: Event)
    ensures e.receipt.Some? && Answers(s, e.receipt.value) ==> s.pendingEffect.Some?
  {}

  lemma ApprovalRoutes(s: State, e: Event)
    requires ValidProgressState(s) && e.kind == EventApprovalDecided
    ensures Routed(s, e, DecideApproval(s, e))
  {
    hide ValidProgressState;
  }

  lemma StopRoutes(s: State, e: Event)
    requires ValidProgressState(s) && (e.kind == EventCancellationConfirmed || e.kind == EventVerificationCompleted || e.kind == EventFinalized)
    ensures Routed(s, e, if e.kind == EventCancellationConfirmed then ConfirmStop(s, e)
                         else if e.kind == EventFinalized then Finalized(s, e) else VerificationCompleted(s, e))
  {
    hide ValidProgressState;
  }

  lemma PlainRoutes(s: State, e: Event)
    requires ValidProgressState(s)
    requires e.kind == EventCapacityRejected || e.kind == EventWorkspaceReady || e.kind == EventEffectUncertain || e.kind == EventResultsIngested
      || e.kind == EventCancelRequested || e.kind == EventResumeRequested || e.kind == EventFailed || e.kind == EventBudgetReached
      || e.kind == EventUnrecognized
    ensures Routed(s, e, Branch(s, e))
  {
    hide ValidProgressState, Blank;
  }

  // ----- the progress record ---------------------------------------------------------------------------

  ghost function Size(l: Logs): nat { |l.trees| + |l.evidence| }

  ghost function Baseline(l: Logs, os: seq<Observation>): nat { if l.trees == [] && os != [] then 1 else 0 }

  lemma ObserveNovel(d: Digest, l: Logs, o: Observation)
    requires d.Valid() && ValidObservation(o) && SuffixOf(d.trees, d.evidence, l)
    ensures var m, r := LogOne(l, o), Observe(d, o); var added := Size(m) - Size(l) - (if l.trees == [] then 1 else 0);
      && added >= 0 && (r.novel <==> d.novel || added > 0) && r.uncertain == (d.uncertain || o.indeterminate) && m.trees != []
  {
    hide ValidWindow, ValidHash, ValidId, Remember;
    var log := if |l.trees| == 0 then Logged(l.trees, o.beforeHash, TREE_WINDOW) else l.trees;
    var based := if |d.trees| == 0 then Remember(d.trees, o.beforeHash, TREE_WINDOW) else d.trees;
    if |d.trees| == 0 {
      WindowOf(d);
      RememberSuffix(l.trees, o.beforeHash, TREE_WINDOW);
    }
    assert based == Newest(log, TREE_WINDOW);
  }

  lemma WindowOf(d: Digest)
    requires d.Valid()
    ensures ValidWindow(d.trees)
  {}

  lemma {:induction false} BatchNovel(d: Digest, l: Logs, os: seq<Observation>)
    requires d.Valid() && (forall i :: 0 <= i < |os| ==> ValidObservation(os[i])) && SuffixOf(d.trees, d.evidence, l)
    requires !d.novel && !d.uncertain
    ensures var r, m := ObserveAll(d, os), LogAll(l, os);
      && Size(l) + Baseline(l, os) <= Size(m) && (r.novel <==> Size(l) + Baseline(l, os) < Size(m))
      && (r.uncertain <==> exists i :: 0 <= i < |os| && os[i].indeterminate) && (os != [] ==> m.trees != [])
  {
    hide Observe, LogOne, ValidObservation, SuffixOf;
    if os != [] {
      var init, o := os[..|os| - 1], os[|os| - 1];
      BatchNovel(d, l, init);
      ObserveAllSuffix(d, l, init);
      ObserveNovel(ObserveAll(d, init), LogAll(l, init), o);
      assert init == [] ==> LogAll(l, init) == l;
      LogsGrow(l, init);
      assert forall i :: 0 <= i < |init| ==> init[i] == os[i];
      if exists i :: 0 <= i < |os| && os[i].indeterminate && !o.indeterminate {
        var i :| 0 <= i < |os| && os[i].indeterminate;
        assert init[i].indeterminate;
      }
    }
  }

  lemma {:induction false} LogsGrow(l: Logs, os: seq<Observation>)
    ensures l.trees != [] ==> LogAll(l, os).trees != []
  {
    if os != [] {
      LogsGrow(l, os[..|os| - 1]);
    }
  }

  lemma AssessProgresses(s: State, e: Event)
    requires ValidProgressState(s) && s.limits.maxNoProgressBatches > 0 && s.stepSeq > 0 && s.progress.Some? && e.progress.Some?
    requires ValidObservations(e.progress.value.observations)
    ensures Progressed(s, e, Some(Assess(s.progress.value, e.progress.value)))
  {
    hide ValidHash, ValidId, ObserveAll, LogAll, ValidObservation;
    var p, f := s.progress.value, e.progress.value;
    var d, l := Digest(p.recentTrees, p.recentEvidence, false, false), Logs(p.recentTrees, p.recentEvidence);
    assert SuffixOf(d.trees, d.evidence, l);
    ObserveAllSuffix(d, l, f.observations);
    BatchNovel(d, l, f.observations);
    hide SuffixOf, ValidWindow;
  }

  lemma ObserveRoutes(s: State, e: Event)
    requires ValidProgressState(s)
    ensures ObserveProgress(s, e).Success? <==> FrameFits(s, e)
    ensures ObserveProgress(s, e).Success? ==> Progressed(s, e, ObserveProgress(s, e).value.progress)
  {
    hide Assess, ValidObservations, ValidWindow, SuffixOf, LogAll, Novel;
    if FrameFits(s, e) && s.limits.maxNoProgressBatches > 0 && s.stepSeq > 0 {
      AssessProgresses(s, e);
      hide Progressed;
    }
  }

  lemma ContextRoutes(s: State, e: Event)
    requires ValidProgressState(s) && e.kind == EventContextBuilt
    ensures Routed(s, e, ContextBuilt(s, e))
  {
    hide ObserveProgress, FrameFits, Progressed, BudgetReached, Late, Dear, RoundsUsed, ValidWindow;
    ObserveRoutes(s, e);
    BudgetMeans(s, e);
    if ObserveProgress(s, e).Success? {
      var n := ObserveProgress(s, e).value;
      BudgetMeans(n, e);
      SameRounds(s, n);
      RoundsLeft(s);
    }
  }

  lemma SameRounds(s: State, n: State)
    requires n == s.(progress := n.progress)
    ensures RoundsUsed(n) == RoundsUsed(s)
  {}

  lemma RoundsLeft(s: State)
    ensures !RoundsUsed(s) ==> s.modelRounds < MAX_UINT64 && s.stepSeq < MAX_UINT64
  {}

  // ----- every event, every run -------------------------------------------------------------------------

  lemma BranchRoutes(s: State, e: Event)
    requires ValidProgressState(s)
    ensures Routed(s, e, Branch(s, e))
  {
    hide ValidProgressState, Routed, Claim, Adopt, ContextBuilt, ModelCompleted, ToolsValidated, EffectCompleted, Reconciled, DecideApproval,
      ConfirmStop, VerificationCompleted, Finalized, CapacityRejected, WorkspaceReady, EffectUncertain, ResultsIngested, ResumeRequested, RunFailed, Stop;
    if e.kind == EventClaimed {
      ClaimRoutes(s, e);
    } else if e.kind == EventWorkspaceAdopted {
      AdoptRoutes(s, e);
    } else if e.kind == EventContextBuilt {
      ContextRoutes(s, e);
    } else if e.kind == EventModelCompleted {
      ModelRoutes(s, e);
    } else if e.kind == EventToolsValidated {
      ToolsRoutes(s, e);
    } else if e.kind == EventEffectCompleted || e.kind == EventReconciled {
      ReceiptRoutes(s, e);
    } else if e.kind == EventApprovalDecided {
      ApprovalRoutes(s, e);
    } else if e.kind == EventCancellationConfirmed || e.kind == EventVerificationCompleted || e.kind == EventFinalized {
      StopRoutes(s, e);
    } else {
      PlainRoutes(s, e);
    }
  }

  /** The guards every event meets first: the version it was made for, a run not yet
      over, a clock and, for a worker's event, the lease; a stopping, parked or waiting
      run listens only to what can end that. */
  ghost predicate Admissible(s: State, e: Event) {
    && e.expectedVersion == s.version && s.version < MAX_UINT64 && e.at != 0 && e.cost >= 0
    && s.status != StatusCancelled && s.status != StatusCompleted && s.status != StatusFailed && s.status != StatusBudgetExhausted
    && (e.kind == EventClaimed || e.kind == EventCancelRequested || e.kind == EventApprovalDecided || e.kind == EventResumeRequested
        || (e.owner == s.lease.owner && e.epoch == s.lease.epoch && s.lease.ValidAt(e.at)))
    && (s.status == StatusCancelRequested ==>
          e.kind == EventClaimed || e.kind == EventCancelRequested || e.kind == EventCancellationConfirmed || e.kind == EventReconciled)
    && (s.status == StatusNeedsReconciliation ==>
          e.kind == EventClaimed || e.kind == EventCancelRequested || e.kind == EventResumeRequested || e.kind == EventReconciled
          || e.kind == EventWorkspaceAdopted)
    && (s.status == StatusWaitingApproval ==> e.kind == EventApprovalDecided || e.kind == EventCancelRequested)
  }

  lemma AdmissionMeans(s: State, e: Event)
    ensures AdmissionError(s, e).None? <==> Admissible(s, e)
  {
    hide Blank;
  }

  /** In every state a run reaches, an event is accepted exactly when it is admissible and
      its branch takes it, or is a repeated cancellation; it then leads exactly where its
      route says, one version on. */
  lemma AcceptedIff(s: State, inputs: seq<Input>, e: Event)
    requires Fresh(s)
    ensures var now := Run(s, inputs);
      && ValidProgressState(now)
      && (Transition(now, e).Accepted? <==> Admissible(now, e) && (Takes(now, e) || RepeatedCancel(now, e)))
      && (Advances(now, e) ==>
            && Takes(now, e) && now.version < MAX_UINT64
            && Transition(now, e).next.version == now.version + 1
            && Route(now, e, Transition(now, e).next.(version := now.version), Transition(now, e).commands))
  {
    hide Fresh, Run, Transition, Branch, AdmissionError, Admissible, Takes, Route, Inv, SnapshotError;
    var now := Run(s, inputs);
    FreshInv(s);
    RunInv(s, inputs);
    AdmissionMeans(now, e);
    ReachableNeverRejectedByValidation(s, inputs, e);
    StepRoutes(now, e);
  }

  lemma StepRoutes(now: State, e: Event)
    requires Inv(now) && SnapshotError(now).None?
    ensures ValidProgressState(now)
    ensures AdmissionError(now, e).None? && !RepeatedCancel(now, e) ==> (Transition(now, e).Accepted? <==> Takes(now, e))
    ensures AdmissionError(now, e).Some? ==> !Transition(now, e).Accepted?
    ensures AdmissionError(now, e).None? && RepeatedCancel(now, e) ==> Transition(now, e) == Accepted(now, [])
    ensures Advances(now, e) ==>
      && Takes(now, e) && now.version < MAX_UINT64 && Transition(now, e).next.version == now.version + 1
      && Route(now, e, Transition(now, e).next.(version := now.version), Transition(now, e).commands)
  {
    hide Inv, Branch, AdmissionError, Takes, Route, SnapshotError;
    ProgressIsValid(now);
    BranchRoutes(now, e);
    ValidationNeverRejects(now, e);
    if Branch(now, e).Accepted? && AdmissionError(now, e).None? {
      VersionStays(now, e);
    }
  }

  lemma ProgressIsValid(s: State)
    requires Inv(s)
    ensures ValidProgressState(s)
  {}

  lemma VersionStays(s: State, e: Event)
    requires ValidProgressState(s) && Branch(s, e).Accepted? && AdmissionError(s, e).None?
    ensures Branch(s, e).next.version == s.version && s.version < MAX_UINT64
  {
    VersionLeft(s, e);
    hide ValidProgressState, Branch, AdmissionError;
    if e.kind == EventWorkspaceAdopted || e.kind == EventToolsValidated || e.kind == EventClaimed || e.kind == EventApprovalDecided {
      BatchVersion(s, e);
    } else if e.kind == EventEffectCompleted || e.kind == EventReconciled || e.kind == EventContextBuilt || e.kind == EventModelCompleted {
      StageVersion(s, e);
    } else {
      PlainVersion(s, e);
    }
  }

  lemma VersionLeft(s: State, e: Event)
    ensures AdmissionError(s, e).None? ==> s.version < MAX_UINT64
  {
    hide Blank;
  }

  lemma PlainVersion(s: State, e: Event)
    requires ValidProgressState(s) && Branch(s, e).Accepted?
    requires e.kind != EventWorkspaceAdopted && e.kind != EventToolsValidated && e.kind != EventClaimed && e.kind != EventApprovalDecided
    requires e.kind != EventEffectCompleted && e.kind != EventReconciled && e.kind != EventContextBuilt && e.kind != EventModelCompleted
    ensures Branch(s, e).next.version == s.version
  {
    hide ValidProgressState, Claim, Adopt, ToolsValidated, EffectCompleted, Reconciled, ContextBuilt, DecideApproval, ModelCompleted, Blank, Unsettled;
  }

  lemma BatchVersion(s: State, e: Event)
    requires ValidProgressState(s) && Branch(s, e).Accepted?
    requires e.kind == EventWorkspaceAdopted || e.kind == EventToolsValidated || e.kind == EventClaimed || e.kind == EventApprovalDecided
    ensures Branch(s, e).next.version == s.version
  {
    hide ValidProgressState, BudgetReached, BatchError, ApprovalMatches, Blank, Unsettled;
  }

  lemma StageVersion(s: State, e: Event)
    requires ValidProgressState(s) && Branch(s, e).Accepted?
    requires e.kind == EventEffectCompleted || e.kind == EventReconciled || e.kind == EventContextBuilt || e.kind == EventModelCompleted
    ensures Branch(s, e).next.version == s.version
  {
    hide ValidProgressState, BudgetReached, ApprovalMatches, Blank, Unsettled, ObserveProgress;
    if e.kind == EventContextBuilt {
      ObserveVersion(s, e);
    }
  }

  lemma ObserveVersion(s: State, e: Event)
    requires ValidProgressState(s)
    ensures ObserveProgress(s, e).Success? ==> ObserveProgress(s, e).value.version == s.version
  {}
}
