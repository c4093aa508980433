/** Safety over whole runs of the reducer, for arbitrary event sequences. */
module ReducerRuns {
  import opened Domain
  import opened RunTypes
  import opened Progress
  import opened Reducer
  import opened ReducerInvariant

  /** What can happen to a stored snapshot: an event is offered to the reducer, or
      a heartbeat or deferral rewrites the lease expiry column. */
  datatype Input = Offer(event: Event) | LeaseClock(until: Instant)

  function Next(s: State, i: Input): State {
    match i
    case Offer(e) => (match Transition(s, e) case Accepted(n, _) => n case Rejected(_) => s)
    case LeaseClock(until) => s.(lease := s.lease.(until := until))
  }

  function Run(s: State, inputs: seq<Input>): State {
    if inputs == [] then s else Next(Run(s, inputs[..|inputs| - 1]), inputs[|inputs| - 1])
  }

  /** One accepted transition (a repeated cancellation commits nothing). */
  datatype Entry = Entry(before: State, event: Event, after: State, commands: seq<Command>)

  predicate Advances(s: State, e: Event) {
    Transition(s, e).Accepted? && !RepeatedCancel(s, e)
  }

  function Trace(s: State, inputs: seq<Input>): seq<Entry> {
    if inputs == [] then []
    else
      var earlier, last := inputs[..|inputs| - 1], inputs[|inputs| - 1];
      var before := Run(s, earlier);
      Trace(s, earlier) + (if last.Offer? && Advances(before, last.event) then [EntryFor(before, last.event)] else [])
  }

  function EntryFor(s: State, e: Event): Entry
    requires Transition(s, e).Accepted?
  {
    Entry(s, e, Transition(s, e).next, Transition(s, e).commands)
  }

  function Count(t: seq<Entry>, p: Entry -> bool): nat {
    if t == [] then 0 else Count(t[..|t| - 1], p) + (if p(t[|t| - 1]) then 1 else 0)
  }

  /** A run starts from a new snapshot that passes validation. */
  ghost predicate Fresh(s: State) {
    exists t: string, r: string, l: Limits :: s == NewState(t, r, l) && SnapshotError(s).None?
  }

  lemma FreshInv(s: State)
    requires Fresh(s)
    ensures Inv(s) && s.toolCalls == 0 && s.modelRounds == 0 && s.stepSeq == 0 && s.workspaceRevision == 0
    ensures s.status == StatusQueued && s.stage == StageInitialize && s.pendingEffect.None? && s.approval.None?
    ensures s.progress.None? && s.verification == VerificationUnverified
  {
    hide SnapshotError, Inv;
    var t: string, r: string, l: Limits :| s == NewState(t, r, l) && SnapshotError(s).None?;
    NewStateInv(t, r, l);
  }

  lemma NextInv(s: State, i: Input)
    requires Inv(s)
    ensures Inv(Next(s, i))
  {
    match i {
      case Offer(e) => ValidationNeverRejects(s, e);
      case LeaseClock(until) => LeaseClockInv(s, until);
    }
  }

  lemma {:induction false} RunInv(s: State, inputs: seq<Input>)
    requires Inv(s)
    ensures Inv(Run(s, inputs))
  {
    if inputs != [] {
      RunInv(s, inputs[..|inputs| - 1]);
      NextInv(Run(s, inputs[..|inputs| - 1]), inputs[|inputs| - 1]);
    }
  }

  /** In every state a run can reach, whatever was offered before, the outcome of
      the next event is decided by the admission guards and its own branch alone. */
  lemma ReachableNeverRejectedByValidation(s: State, inputs: seq<Input>, e: Event)
    requires Fresh(s)
    ensures var now := Run(s, inputs);
            && SnapshotError(now).None?
            && (AdmissionError(now, e).None? && !RepeatedCancel(now, e) ==>
                  && (Transition(now, e).Accepted? <==> Branch(now, e).Accepted?)
                  && (Branch(now, e).Accepted? ==>
                        && Transition(now, e).next == Branch(now, e).next.(version := now.version + 1)
                        && SnapshotError(Transition(now, e).next).None?))
  {
    hide Branch, AdmissionError;
    FreshInv(s);
    RunInv(s, inputs);
    ValidationNeverRejects(Run(s, inputs), e);
    if Transition(Run(s, inputs), e).Accepted? {
      SoundIsValid(Transition(Run(s, inputs), e).next);
    }
  }

  lemma TraceStep(s: State, inputs: seq<Input>)
    requires inputs != []
    ensures var earlier, last := inputs[..|inputs| - 1], inputs[|inputs| - 1];
            var before := Run(s, earlier);
            && Run(s, inputs) == Next(before, last)
            && (last.Offer? && Advances(before, last.event) ==>
                  && Trace(s, inputs) == Trace(s, earlier) + [EntryFor(before, last.event)]
                  && Run(s, inputs) == Transition(before, last.event).next)
            && (!(last.Offer? && Advances(before, last.event)) ==>
                  && Trace(s, inputs) == Trace(s, earlier)
                  && (Run(s, inputs) == before || (last.LeaseClock? && Run(s, inputs) == before.(lease := before.lease.(until := last.until)))))
  {}

  lemma CountStep(t: seq<Entry>, x: Entry, p: Entry -> bool)
    ensures Count(t + [x], p) == Count(t, p) + if p(x) then 1 else 0
  {
    assert (t + [x])[..|t|] == t;
  }

  // ----- what one accepted event does ---------------------------------------------------

  predicate Executes(x: Entry) { x.commands != [] && x.commands[0].CommandExecuteEffect? }

  /** Accepted receipts: the two events that settle a dispatched effect. */
  predicate Settles(x: Entry) { x.event.kind in {EventEffectCompleted, EventReconciled} }

  function Open(s: State): nat { if Unsettled(s.pendingEffect) then 1 else 0 }

  predicate SamePlan(a: Effect, b: Effect) {
    Identity(a).(expectedRevision := 0) == Identity(b).(expectedRevision := 0)
  }

  /** The planned effects an event can draw on. */
  predicate PlannedBy(s: State, e: Event, f: Effect) {
    || (s.pendingEffect.Some? && s.pendingEffect.value.status == EffectPlanned && SamePlan(s.pendingEffect.value, f))
    || (s.remainingEffects != [] && SamePlan(s.remainingEffects[0], f))
    || (e.kind == EventToolsValidated && e.effects != [] && SamePlan(e.effects[0], f))
  }

  /** The effect ledger: an execute command is one planned effect leaving. */
  predicate LedgerStep(x: Entry) {
    && |x.commands| <= 1
    && x.after.toolCalls == x.before.toolCalls + (if Executes(x) then 1 else 0)
    && Open(x.before) + (if Executes(x) then 1 else 0) == Open(x.after) + (if Settles(x) then 1 else 0)
    && (Executes(x) ==>
          var f := x.commands[0].effect;
          && x.after.pendingEffect == Some(f) && f.status == EffectInFlight && f.dispatchEpoch == x.after.lease.epoch
          && f.expectedRevision == x.after.workspaceRevision && PlannedBy(x.before, x.event, f))
  }

  /** An accepted grant of binding `a`. */
  predicate Grants(x: Entry, a: ApprovalBinding) {
    && x.event.kind == EventApprovalDecided && x.event.approval.Some? && x.event.approval.value.approve
    && var b := x.event.approval.value.binding;
       && b.effectId == a.effectId && b.argsHash == a.argsHash && b.policyVersion == a.policyVersion
       && b.workspaceRevision == a.workspaceRevision
  }

  function BindingOf(f: Effect): ApprovalBinding {
    ApprovalBinding(f.id, f.argsHash, f.expectedRevision, f.policyVersion, 0, true)
  }

  /** A granted approval is either this event's decision or inherited unchanged,
      and an effect that requires approval leaves only under a granted one. */
  predicate ApprovalStep(x: Entry) {
    && (x.after.approval.Some? && x.after.approval.value.granted ==>
          Grants(x, x.after.approval.value) || x.after.approval == x.before.approval)
    && (Executes(x) && x.commands[0].effect.requiresApproval ==>
          && x.before.approval.Some? && x.before.approval.value.granted
          && x.before.approval.value.(version := 0) == BindingOf(x.commands[0].effect)
          && x.after.workspaceRevision == x.before.workspaceRevision)
  }

  predicate Passes(v: Evidence, s: State) {
    && v.trusted && v.regressionPassed && (v.baselineTargetFailed ==> v.targetPassed)
    && v.workspaceRevision == s.workspaceRevision && v.reportRef == s.verificationReportRef
  }

  /** The revision only grows, and a positive verification is either this very
      event's trusted evidence or inherited with the revision it was made at. */
  predicate RevisionStep(x: Entry) {
    && x.before.workspaceRevision <= x.after.workspaceRevision
    && (x.after.verification != VerificationUnverified ==>
          || (x.event.kind == EventVerificationCompleted && x.event.verification.Some? && Passes(x.event.verification.value, x.after))
          || (!Settles(x) && x.before.verification == x.after.verification
              && x.before.workspaceRevision == x.after.workspaceRevision
              && x.before.verificationReportRef == x.after.verificationReportRef))
    && (x.after.status == StatusCompleted ==> x.after.verification != VerificationUnverified)
  }

  /** Limits are frozen, and only an accepted context touches the progress record. */
  predicate FrameStep(x: Entry) {
    x.after.limits == x.before.limits && (x.event.kind != EventContextBuilt ==> x.after.progress == x.before.progress)
  }

  predicate StepFacts(x: Entry) { LedgerStep(x) && ApprovalStep(x) && RevisionStep(x) && FrameStep(x) }

  /** Branches that leave the effect ledger, approvals and verification alone. */
  predicate Quiet(k: EventKind) {
    k in {EventClaimed, EventCapacityRejected, EventContextBuilt, EventModelCompleted, EventResultsIngested,
          EventCancelRequested, EventResumeRequested, EventFailed, EventBudgetReached}
  }

  predicate QuietResult(s: State, e: Event, r: Outcome) {
    r.Accepted? ==>
      && r.next.limits == s.limits && (e.kind != EventContextBuilt ==> r.next.progress == s.progress)
      && |r.commands| <= 1 && (r.commands != [] ==> !r.commands[0].CommandExecuteEffect?)
      && r.next.pendingEffect == s.pendingEffect && r.next.approval == s.approval && r.next.toolCalls == s.toolCalls
      && r.next.workspaceRevision == s.workspaceRevision && r.next.verification == s.verification
      && r.next.verificationReportRef == s.verificationReportRef && r.next.status != StatusCompleted
  }

  lemma QuietFacts(s: State, e: Event)
    requires ValidProgressState(s) && Quiet(e.kind)
    ensures QuietResult(s, e, Branch(s, e))
  {
    hide BudgetReached, ValidProgressState, Blank;
  }

  /** Scheduling from a settled or validated batch. */
  lemma ScheduleFacts(s: State, e: Event)
    requires s.status == StatusRunning && s.pendingEffect.None? && s.approval.None? && Schedule(s, e).Accepted?
    ensures var r := Schedule(s, e); var x := Entry(s, e, r.next, r.commands);
            && |r.commands| <= 1
            && r.next.toolCalls == s.toolCalls + (if Executes(x) then 1 else 0)
            && Open(r.next) == (if Executes(x) then 1 else 0)
            && r.next.workspaceRevision == s.workspaceRevision && r.next.verification == s.verification
            && r.next.verificationReportRef == s.verificationReportRef && r.next.status != StatusCompleted
            && (r.next.approval.Some? ==> !r.next.approval.value.granted)
            && r.next.limits == s.limits && r.next.progress == s.progress
            && (Executes(x) ==>
                  var f := x.commands[0].effect;
                  && r.next.pendingEffect == Some(f) && f.status == EffectInFlight && f.dispatchEpoch == r.next.lease.epoch
                  && f.expectedRevision == s.workspaceRevision && !f.requiresApproval
                  && s.remainingEffects != [] && SamePlan(s.remainingEffects[0], f))
  {}

  lemma SettleFacts(s: State, e: Event, reconciliation: bool)
    requires Ledger(s) && SettleEffect(s, e, reconciliation).Accepted?
    requires e.kind in {EventEffectCompleted, EventReconciled}
    ensures var r := SettleEffect(s, e, reconciliation); StepFacts(Entry(s, e, r.next, r.commands))
  {
    if s.status != StatusCancelRequested {
      var r := e.receipt.value;
      var n := s.(pendingEffect := None, workspaceRevision := r.afterRevision, reconciliationRevision := 0,
                  outputRef := r.ref, verification := VerificationUnverified, verificationReportRef := "",
                  verificationRevision := 0, approval := None, status := StatusRunning, failureReason := "",
                  remainingEffects := if r.status != EffectSucceeded then [] else s.remainingEffects);
      assert SettleEffect(s, e, reconciliation) == Schedule(n, e);
      hide Schedule, Identity;
      ScheduleFacts(n, e);
    }
  }

  lemma ToolsFacts(s: State, e: Event)
    requires Placement(s) && Ledger(s) && ValidBindings(s) && e.kind == EventToolsValidated && ToolsValidated(s, e).Accepted?
    ensures var r := ToolsValidated(s, e); StepFacts(Entry(s, e, r.next, r.commands))
  {
    var n := s.(outputRef := e.outputRef, remainingEffects := e.effects);
    assert ToolsValidated(s, e) == Schedule(n, e);
    hide Schedule, Identity;
    ScheduleFacts(n, e);
  }

  lemma ResumeFacts(s: State, e: Event)
    requires s.status == StatusRunning && !Unsettled(s.pendingEffect)
    requires s.stage == StageExecuteEffects ==> s.toolCalls < MAX_UINT64
    requires s.pendingEffect.Some? && s.pendingEffect.value.status == EffectPlanned ==>
               s.pendingEffect.value.expectedRevision == s.workspaceRevision
    requires e.kind == EventWorkspaceAdopted && CommandForStage(s).Accepted?
    ensures var r := CommandForStage(s); StepFacts(Entry(s, e, r.next, r.commands))
  {
    if s.stage != StageExecuteEffects {
      assert CommandForStage(s).next == s && |CommandForStage(s).commands| == 1;
    }
  }

  lemma AdoptFacts(s: State, e: Event)
    requires Ledger(s) && Placement(s) && e.kind == EventWorkspaceAdopted && Adopt(s, e).Accepted?
    ensures var r := Adopt(s, e); StepFacts(Entry(s, e, r.next, r.commands))
  {
    if !Unsettled(s.pendingEffect) && e.stop.value.workspaceRevision == s.workspaceRevision {
      var resumed := s.(stage := s.resumeStage, resumeStage := NoStage);
      if !BudgetReached(resumed, e, false, resumed.stage == StageExecuteEffects) {
        ResumeFacts(resumed, e);
        assert Adopt(s, e) == CommandForStage(resumed);
      }
    }
    hide BudgetReached, CommandForStage, Identity;
  }

  lemma OtherFacts(s: State, e: Event)
    requires Inv(s) && !s.status.Terminal() && Branch(s, e).Accepted?
    requires e.kind in {EventWorkspaceReady, EventEffectUncertain, EventApprovalDecided, EventVerificationCompleted,
                        EventFinalized, EventCancellationConfirmed}
    ensures var r := Branch(s, e); StepFacts(Entry(s, e, r.next, r.commands))
  {
    hide ValidProgressState, GoodEffects, Header;
  }

  lemma BranchFacts(s: State, e: Event)
    requires Inv(s) && AdmissionError(s, e).None? && !RepeatedCancel(s, e) && Branch(s, e).Accepted?
    ensures var r := Branch(s, e); StepFacts(Entry(s, e, r.next, r.commands))
  {
    if Quiet(e.kind) {
      QuietFacts(s, e);
      hide Branch, AdmissionError;
    } else {
      hide LedgerStep, ApprovalStep, RevisionStep, FrameStep;
      match e.kind {
        case EventEffectCompleted => SettleFacts(s, e, false);
        case EventReconciled => SettleFacts(s, e, true);
        case EventWorkspaceAdopted => AdoptFacts(s, e);
        case EventToolsValidated => ToolsFacts(s, e);
        case _ => OtherFacts(s, e);
      }
    }
  }

  lemma TransitionFacts(s: State, e: Event)
    requires Inv(s) && Advances(s, e)
    ensures StepFacts(EntryFor(s, e))
  {
    hide Branch, AdmissionError, SnapshotError;
    ValidationNeverRejects(s, e);
    BranchFacts(s, e);
  }

  // ----- one effect at a time ---------------------------------------------------------

  /** The commands emitted so far against the snapshot's own counters. */
  ghost predicate Balanced(t: seq<Entry>, s: State) {
    && Count(t, Executes) == s.toolCalls
    && Count(t, Executes) == Count(t, Settles) + Open(s)
    && (forall k :: 0 <= k < |t| ==> LedgerStep(t[k]))
  }

  lemma BalanceExtends(t: seq<Entry>, x: Entry)
    requires Balanced(t, x.before) && LedgerStep(x)
    ensures Balanced(t + [x], x.after)
  {
    hide PlannedBy;
    CountStep(t, x, Executes);
    CountStep(t, x, Settles);
  }

  /** Over any run, `ToolCalls` counts the execute commands exactly, and each of
      them but the one still open has been settled by an accepted receipt: between
      a dispatch and its settlement the effect is only ever inspected. */
  lemma {:induction false} DispatchesBalance(s: State, inputs: seq<Input>)
    requires Fresh(s)
    ensures Balanced(Trace(s, inputs), Run(s, inputs))
  {
    FreshInv(s);
    hide Transition, Inv, ApprovalStep, RevisionStep, LedgerStep, FrameStep, Fresh;
    if inputs != [] {
      var earlier, last := inputs[..|inputs| - 1], inputs[|inputs| - 1];
      DispatchesBalance(s, earlier);
      TraceStep(s, inputs);
      RunInv(s, earlier);
      if last.Offer? && Advances(Run(s, earlier), last.event) {
        TransitionFacts(Run(s, earlier), last.event);
        BalanceExtends(Trace(s, earlier), EntryFor(Run(s, earlier), last.event));
      }
    }
  }

  // ----- approvals ----------------------------------------------------------------------

  ghost predicate Granted(t: seq<Entry>, a: ApprovalBinding) {
    exists k :: 0 <= k < |t| && Grants(t[k], a)
  }

  /** `t[k]` either executes nothing that needs approval, or an earlier entry granted
      exactly that ID, arguments and policy at the still-current revision. */
  ghost predicate ApprovedAt(t: seq<Entry>, k: nat)
    requires k < |t|
  {
    Executes(t[k]) && t[k].commands[0].effect.requiresApproval ==>
      && Granted(t[..k], BindingOf(t[k].commands[0].effect))
      && t[k].commands[0].effect.expectedRevision == t[k].after.workspaceRevision == t[k].before.workspaceRevision
  }

  ghost predicate ApprovalsOnRecord(t: seq<Entry>, s: State) {
    && (s.approval.Some? && s.approval.value.granted ==> Granted(t, s.approval.value))
    && (forall k: nat :: k < |t| ==> ApprovedAt(t, k))
  }

  lemma ApprovalExtends(t: seq<Entry>, x: Entry)
    requires ApprovalsOnRecord(t, x.before) && ApprovalStep(x) && LedgerStep(x)
    ensures ApprovalsOnRecord(t + [x], x.after)
  {
    hide PlannedBy;
    var u, a := t + [x], x.after.approval;
    if a.Some? && a.value.granted {
      if Grants(x, a.value) {
        assert Grants(u[|t|], a.value);
      } else {
        var k :| 0 <= k < |t| && Grants(t[k], a.value);
        assert Grants(u[k], a.value);
      }
    }
    forall k: nat | k < |u| ensures ApprovedAt(u, k) {
      if k < |t| {
        assert ApprovedAt(t, k) && u[..k] == t[..k];
      } else if Executes(x) && x.commands[0].effect.requiresApproval {
        var j :| 0 <= j < |t| && Grants(t[j], x.before.approval.value);
        assert u[..k] == t && Grants(t[j], BindingOf(x.commands[0].effect));
      }
    }
  }

  /** No effect that requires approval is ever executed unless an earlier accepted
      decision granted exactly that ID, arguments, policy and current revision. */
  lemma {:induction false} ExecutionNeedsGrant(s: State, inputs: seq<Input>)
    requires Fresh(s)
    ensures ApprovalsOnRecord(Trace(s, inputs), Run(s, inputs))
  {
    FreshInv(s);
    hide Transition, Inv, LedgerStep, RevisionStep, ApprovalStep, Fresh;
    if inputs != [] {
      var earlier, last := inputs[..|inputs| - 1], inputs[|inputs| - 1];
      ExecutionNeedsGrant(s, earlier);
      TraceStep(s, inputs);
      RunInv(s, earlier);
      if last.Offer? && Advances(Run(s, earlier), last.event) {
        TransitionFacts(Run(s, earlier), last.event);
        ApprovalExtends(Trace(s, earlier), EntryFor(Run(s, earlier), last.event));
      }
    }
  }

  // ----- stopping ---------------------------------------------------------------------------

  predicate OnlyStops(x: Entry) {
    forall i :: 0 <= i < |x.commands| ==> x.commands[i] in {CommandStopExecution, CommandPublishTerminal}
  }

  lemma StoppingBranch(s: State, e: Event)
    requires s.status == StatusCancelRequested && Branch.requires(s, e) && Branch(s, e).Accepted?
    requires e.kind in {EventClaimed, EventCancellationConfirmed, EventReconciled}
    ensures var r := Branch(s, e);
            && OnlyStops(Entry(s, e, r.next, r.commands)) && r.next.stopTarget == s.stopTarget
            && r.next.status in {StatusCancelRequested, s.stopTarget}
  {
    hide Schedule, ValidProgressState, Blank;
  }

  lemma StoppingStep(s: State, e: Event)
    requires Inv(s) && s.status == StatusCancelRequested && Advances(s, e)
    ensures var x := EntryFor(s, e);
            && OnlyStops(x) && x.after.stopTarget == s.stopTarget
            && x.after.status in {StatusCancelRequested, s.stopTarget}
  {
    hide Branch, SnapshotError;
    ValidationNeverRejects(s, e);
    StoppingBranch(s, e);
  }

  lemma Finished(s: State, e: Event)
    requires s.status.Terminal()
    ensures !Transition(s, e).Accepted?
  {}

  /** Once a stop is requested, whatever arrives later: the target never changes,
      only stop and publish commands are emitted, and the only status left to
      reach is the target. */
  lemma {:induction false} StopDominates(s: State, inputs: seq<Input>)
    requires Inv(s) && (s.status == StatusCancelRequested || s.status.Terminal())
    ensures var now, t := Run(s, inputs), Trace(s, inputs);
            && now.stopTarget == s.stopTarget
            && now.status in {s.status, s.stopTarget} && (now.status == StatusCancelRequested || now.status.Terminal())
            && (s.status.Terminal() ==> t == [])
            && (forall k :: 0 <= k < |t| ==> OnlyStops(t[k]))
  {
    assert s.status == StatusCancelRequested ==> s.stopTarget.Terminal();
    hide Transition, Inv, OnlyStops;
    if inputs != [] {
      var earlier, last := inputs[..|inputs| - 1], inputs[|inputs| - 1];
      StopDominates(s, earlier);
      RunInv(s, earlier);
      TraceStep(s, inputs);
      var before := Run(s, earlier);
      if last.Offer? && Advances(before, last.event) {
        if before.status.Terminal() {
          Finished(before, last.event);
        }
        StoppingStep(before, last.event);
      }
    }
  }

  // ----- workspace revision and verification -----------------------------------------------

  /** The workspace revision never decreases along a run. */
  lemma {:induction false} RevisionMonotone(s: State, inputs: seq<Input>)
    requires Inv(s)
    ensures s.workspaceRevision <= Run(s, inputs).workspaceRevision
  {
    hide Transition, Inv, LedgerStep, ApprovalStep;
    if inputs != [] {
      var earlier, last := inputs[..|inputs| - 1], inputs[|inputs| - 1];
      RevisionMonotone(s, earlier);
      RunInv(s, earlier);
      TraceStep(s, inputs);
      if last.Offer? && Advances(Run(s, earlier), last.event) {
        TransitionFacts(Run(s, earlier), last.event);
      }
    }
  }

  /** `t[k]` accepted a passing verification of `s` and nothing was settled after it. */
  predicate VerifiedAt(t: seq<Entry>, k: nat, s: State)
    requires k < |t|
  {
    && t[k].event.kind == EventVerificationCompleted && t[k].event.verification.Some?
    && Passes(t[k].event.verification.value, s)
    && (forall j :: k < j < |t| ==> !Settles(t[j]))
  }

  ghost predicate Verified(t: seq<Entry>, s: State) {
    exists k: nat :: k < |t| && VerifiedAt(t, k, s)
  }

  /** Whatever the snapshot claims about verification is on record. */
  ghost predicate VerdictOnRecord(t: seq<Entry>, s: State) {
    && (s.verification != VerificationUnverified ==> Verified(t, s))
    && (s.status == StatusCompleted ==> s.verification != VerificationUnverified)
  }

  lemma VerdictExtends(t: seq<Entry>, x: Entry)
    requires VerdictOnRecord(t, x.before) && RevisionStep(x)
    ensures VerdictOnRecord(t + [x], x.after)
  {
    if x.after.verification != VerificationUnverified {
      if x.event.kind == EventVerificationCompleted && x.event.verification.Some? && Passes(x.event.verification.value, x.after) {
        assert VerifiedAt(t + [x], |t|, x.after);
      } else {
        var k: nat :| k < |t| && VerifiedAt(t, k, x.before);
        assert VerifiedAt(t + [x], k, x.after);
      }
    }
  }

  lemma VerdictLease(t: seq<Entry>, s: State, until: Instant)
    requires VerdictOnRecord(t, s)
    ensures VerdictOnRecord(t, s.(lease := s.lease.(until := until)))
  {
    if s.verification != VerificationUnverified {
      var k: nat :| k < |t| && VerifiedAt(t, k, s);
      assert VerifiedAt(t, k, s.(lease := s.lease.(until := until)));
    }
  }

  lemma {:induction false} VerificationOnRecord(s: State, inputs: seq<Input>)
    requires Fresh(s)
    ensures VerdictOnRecord(Trace(s, inputs), Run(s, inputs))
  {
    FreshInv(s);
    assert VerdictOnRecord([], s);
    hide Transition, Inv, LedgerStep, ApprovalStep, RevisionStep, VerdictOnRecord, Fresh;
    if inputs != [] {
      var earlier, last := inputs[..|inputs| - 1], inputs[|inputs| - 1];
      VerificationOnRecord(s, earlier);
      RunInv(s, earlier);
      TraceStep(s, inputs);
      var before, t := Run(s, earlier), Trace(s, earlier);
      if last.Offer? && Advances(before, last.event) {
        TransitionFacts(before, last.event);
        VerdictExtends(t, EntryFor(before, last.event));
      } else if last.LeaseClock? {
        VerdictLease(t, before, last.until);
      }
    }
  }

  /** A completed run was verified: trusted evidence with passing regressions (and
      a passing target wherever the baseline had shown it failing) was accepted at
      exactly the final revision, and no effect was settled after it. */
  lemma CompletedIsVerified(s: State, inputs: seq<Input>)
    requires Fresh(s) && Run(s, inputs).status == StatusCompleted
    ensures Verified(Trace(s, inputs), Run(s, inputs))
  {
    hide Transition;
    VerificationOnRecord(s, inputs);
  }
}
