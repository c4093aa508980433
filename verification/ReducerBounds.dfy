/** How long a run can go on: a potential for worker events, and another for
    repeated batches of tool results. */
module ReducerBounds {
  import opened Domain
  import opened RunTypes
  import opened Progress
  import opened Reducer
  import opened ReducerInvariant
  import opened ReducerRuns

  // ----- accepted worker events are bounded ------------------------------------------

  predicate WorkerEvent(x: Entry) { !ControlEvent(x.event.kind) && x.event.kind != EventClaimed }

  predicate ClaimEvent(x: Entry) { x.event.kind == EventClaimed }

  function Left(limit: uint64, used: uint64): nat { if used < limit then limit - used else 0 }

  function StageRank(s: State): nat {
    match EffectiveStage(s)
    case StageInitialize => 4
    case StageBuildContext => 3
    case StageModel => 9
    case StageValidateTools => 8
    case StageIngestResults => 4
    case StageVerify => 6
    case StageFinalize => 5
    case StageApprovalGate => 5
    case StageExecuteEffects => if Unsettled(s.pendingEffect) then 7 else 5
    case StageReconcile => if Unsettled(s.pendingEffect) then 6 else 2
    case _ => 0
  }

  /** One more event is owed while a fresh owner prepares or adopts the workspace. */
  function Arrival(s: State): nat {
    if s.stage == StageAdoptWorkspace || (s.stage == StageInitialize && s.status == StatusRunning) then 1 else 0
  }

  function Potential(s: State): nat {
    if s.status.Terminal() then 0
    else if s.status == StatusCancelRequested then 1 + Open(s)
    else 7 * Left(s.limits.maxModelRounds, s.modelRounds) + 2 * Left(s.limits.maxToolCalls, s.toolCalls)
         + StageRank(s) + Arrival(s)
  }

  ghost predicate Spends(x: Entry) {
    && x.after.limits == x.before.limits
    && Potential(x.after) + (if WorkerEvent(x) then 1 else 0) <= Potential(x.before) + (if ClaimEvent(x) then 1 else 0)
  }

  ghost predicate Limited(s: State) { s.limits.maxModelRounds > 0 && s.limits.maxToolCalls > 0 }

  /** A scheduling decision costs less than what settling or validation released. */
  lemma ScheduleSpends(s: State, e: Event)
    requires Schedulable(s) && Limited(s)
    ensures var n := Schedule(s, e).next;
            && n.limits == s.limits
            && Potential(n) <= 7 * Left(s.limits.maxModelRounds, s.modelRounds) + 2 * Left(s.limits.maxToolCalls, s.toolCalls) + 5
  {}

  lemma SettleSpends(s: State, e: Event, reconciliation: bool)
    requires Inv(s) && Limited(s) && AdmissionError(s, e).None? && SettleEffect(s, e, reconciliation).Accepted?
    requires e.kind == if reconciliation then EventReconciled else EventEffectCompleted
    requires s.status in {StatusRunning, StatusNeedsReconciliation, StatusCancelRequested}
    requires s.status == StatusRunning ==> s.stage == StageExecuteEffects
    requires s.status == StatusNeedsReconciliation ==> s.stage == StageReconcile
    ensures var r := SettleEffect(s, e, reconciliation); Spends(Entry(s, e, r.next, r.commands))
  {
    if s.status != StatusCancelRequested {
      var r := e.receipt.value;
      var n := s.(pendingEffect := None, workspaceRevision := r.afterRevision, reconciliationRevision := 0,
                  outputRef := r.ref, verification := VerificationUnverified, verificationReportRef := "",
                  verificationRevision := 0, approval := None, status := StatusRunning, failureReason := "",
                  remainingEffects := if r.status != EffectSucceeded then [] else s.remainingEffects);
      assert SettleEffect(s, e, reconciliation) == Schedule(n, e);
      LiveOwner(s.lease, e.at);
      Cleared(s.remainingEffects, IdentityOf(s.pendingEffect));
      ScheduleSpends(n, e);
    }
  }

  lemma ToolsSpends(s: State, e: Event)
    requires Inv(s) && Limited(s) && AdmissionError(s, e).None? && e.kind == EventToolsValidated && ToolsValidated(s, e).Accepted?
    ensures var r := ToolsValidated(s, e); Spends(Entry(s, e, r.next, r.commands))
  {
    BatchErrorMeaning(e.effects, {}, ErrConflict);
    ScheduleSpends(s.(outputRef := e.outputRef, remainingEffects := e.effects), e);
  }

  lemma ResumeSpends(s: State, e: Event)
    requires Inv(s) && Limited(s) && s.status == StatusRunning && s.stage == StageAdoptWorkspace && !Unsettled(s.pendingEffect)
    ensures var resumed := s.(stage := s.resumeStage, resumeStage := NoStage);
            && Potential(resumed) + 1 <= Potential(s)
            && Potential(Stop(resumed, StatusBudgetExhausted, "budget reached while workspace was suspended").next) + 1 <= Potential(s)
            && (!BudgetReached(resumed, e, false, resumed.stage == StageExecuteEffects) && CommandForStage(resumed).Accepted? ==>
                  && CommandForStage(resumed).next.limits == s.limits
                  && Potential(CommandForStage(resumed).next) + 1 <= Potential(s))
  {
    var resumed := s.(stage := s.resumeStage, resumeStage := NoStage);
    if resumed.stage != StageExecuteEffects && CommandForStage(resumed).Accepted? {
      assert CommandForStage(resumed).next == resumed;
    }
  }

  lemma AdoptSpends(s: State, e: Event)
    requires Inv(s) && Limited(s) && e.kind == EventWorkspaceAdopted && Adopt(s, e).Accepted?
    ensures var r := Adopt(s, e); Spends(Entry(s, e, r.next, r.commands))
  {
    hide CommandForStage, BudgetReached, Sound;
    if !Unsettled(s.pendingEffect) && e.stop.value.workspaceRevision == s.workspaceRevision {
      hide StageRank;
      ResumeSpends(s, e);
    }
  }

  lemma StopSpends(s: State, target: RunStatus, reason: string)
    requires Inv(s) && !s.status.Terminal() && s.status != StatusCancelRequested
    ensures Potential(Stop(s, target, reason).next) + (if s.status == StatusRunning then 1 else 0) <= Potential(s)
  {}

  lemma ContextSpends(s: State, e: Event)
    requires Inv(s) && Limited(s) && e.kind == EventContextBuilt && ContextBuilt(s, e).Accepted?
    ensures var r := ContextBuilt(s, e); Spends(Entry(s, e, r.next, r.commands))
  {}

  lemma ClaimSpends(s: State, e: Event)
    requires Inv(s) && e.kind == EventClaimed && Claim(s, e).Accepted? && !s.status.Terminal()
    ensures var r := Claim(s, e); Spends(Entry(s, e, r.next, r.commands))
  {
    hide ValidProgressState, GoodEffects, Header, Blank;
  }

  lemma WorkSpends(s: State, e: Event)
    requires Inv(s) && !s.status.Terminal() && Branch(s, e).Accepted?
    requires e.kind in {EventCapacityRejected, EventWorkspaceReady, EventModelCompleted, EventEffectUncertain, EventResultsIngested}
    ensures var r := Branch(s, e); Spends(Entry(s, e, r.next, r.commands))
  {
    hide ValidProgressState, GoodEffects, Header, Blank, BudgetReached;
  }

  lemma DecisionSpends(s: State, e: Event)
    requires Inv(s) && !s.status.Terminal() && Branch(s, e).Accepted?
    requires e.kind in {EventApprovalDecided, EventVerificationCompleted, EventFinalized, EventCancellationConfirmed, EventResumeRequested}
    ensures var r := Branch(s, e); Spends(Entry(s, e, r.next, r.commands))
  {
    hide ValidProgressState, GoodEffects, Header, Blank, BudgetReached;
  }

  /** Every accepted worker event lowers the potential; a claim raises it by at
      most one and control events never raise it. */
  lemma BranchSpends(s: State, e: Event)
    requires Inv(s) && Limited(s) && AdmissionError(s, e).None? && !RepeatedCancel(s, e) && Branch(s, e).Accepted?
    ensures var r := Branch(s, e); Spends(Entry(s, e, r.next, r.commands))
  {
    hide Potential, Placement, Ledger;
    match e.kind {
      case EventClaimed => ClaimSpends(s, e);
      case EventWorkspaceAdopted => AdoptSpends(s, e);
      case EventContextBuilt => ContextSpends(s, e);
      case EventToolsValidated => ToolsSpends(s, e);
      case EventEffectCompleted => SettleSpends(s, e, false);
      case EventReconciled => SettleSpends(s, e, true);
      case EventCancelRequested => StopSpends(s, StatusCancelled, "cancellation requested");
      case EventFailed => StopSpends(s, StatusFailed, e.reason);
      case EventBudgetReached => StopSpends(s, StatusBudgetExhausted, e.reason);
      case EventApprovalDecided => DecisionSpends(s, e);
      case EventVerificationCompleted => DecisionSpends(s, e);
      case EventFinalized => DecisionSpends(s, e);
      case EventCancellationConfirmed => DecisionSpends(s, e);
      case EventResumeRequested => DecisionSpends(s, e);
      case _ => WorkSpends(s, e);
    }
  }

  /** The potential reads neither the version nor the lease. */
  lemma SameBudget(a: State, b: State)
    requires b == a.(version := b.version, lease := b.lease)
    ensures Potential(a) == Potential(b)
  {}

  lemma TransitionSpends(s: State, e: Event)
    requires Inv(s) && Limited(s) && Advances(s, e)
    ensures Spends(EntryFor(s, e))
  {
    ValidationNeverRejects(s, e);
    BranchSpends(s, e);
    SameBudget(Branch(s, e).next, Transition(s, e).next);
    hide Branch, SnapshotError, AdmissionError, Potential;
  }

  ghost predicate WithinBudget(t: seq<Entry>, s: State, budget: int) {
    Limited(s) && Count(t, WorkerEvent) + Potential(s) <= budget + Count(t, ClaimEvent)
  }

  lemma BudgetExtends(t: seq<Entry>, x: Entry, budget: int)
    requires WithinBudget(t, x.before, budget) && Spends(x)
    ensures WithinBudget(t + [x], x.after, budget)
  {
    hide Potential;
    CountStep(t, x, WorkerEvent);
    CountStep(t, x, ClaimEvent);
  }

  /** With positive round and call limits, the worker events a run can ever accept
      are bounded by a linear function of the limits and the number of claims. */
  lemma {:induction false} WorkerEventsBounded(s: State, inputs: seq<Input>)
    requires Fresh(s) && Limited(s)
    ensures WithinBudget(Trace(s, inputs), Run(s, inputs), 7 * s.limits.maxModelRounds + 2 * s.limits.maxToolCalls + 4)
  {
    FreshInv(s);
    assert WithinBudget([], s, 7 * s.limits.maxModelRounds + 2 * s.limits.maxToolCalls + 4);
    hide Transition, Inv, Fresh, Spends, Potential;
    if inputs != [] {
      var earlier, last := inputs[..|inputs| - 1], inputs[|inputs| - 1];
      WorkerEventsBounded(s, earlier);
      RunInv(s, earlier);
      TraceStep(s, inputs);
      var before := Run(s, earlier);
      if last.Offer? && Advances(before, last.event) {
        TransitionSpends(before, last.event);
        BudgetExtends(Trace(s, earlier), EntryFor(before, last.event), 7 * s.limits.maxModelRounds + 2 * s.limits.maxToolCalls + 4);
      } else {
        SameBudget(before, Run(s, inputs));
      }
    }
  }

  // ----- repeated batches stop the run --------------------------------------------------

  /** An accepted context that closes an earlier batch. */
  predicate ProgressEntry(x: Entry) { x.event.kind == EventContextBuilt && x.before.stepSeq > 0 }

  /** The batch repeats what finite stocks allow, without message or doubt. */
  ghost predicate Stale(x: Entry, trees: set<string>, prints: set<string>) {
    x.event.progress.Some? ==>
      && (x.before.progress.Some? ==> x.event.progress.value.messageSeq <= x.before.progress.value.messageSeq)
      && forall i :: 0 <= i < |x.event.progress.value.observations| ==>
           DrawnFrom(x.event.progress.value.observations[i], trees, prints)
  }

  /** Frames left: each novelty buys one more streak of `limit` repeats. */
  ghost function Room(stock: int, used: int, limit: int, repeated: int): int {
    (stock - used) * limit + limit - repeated
  }

  ghost function Patience(s: State, trees: set<string>, prints: set<string>): int {
    var limit, stock := s.limits.maxNoProgressBatches, |trees| + |prints|;
    match s.progress
    case None => Room(stock, 0, limit, 0)
    case Some(p) => Room(stock, |p.recentTrees| + |p.recentEvidence|, limit, p.repeatedBatches)
  }

  lemma Expand(x: int, d: int, m: int)
    ensures (x + d) * m == x * m + d * m
    ensures x >= 0 && m >= 0 ==> x * m >= 0
  {}

  lemma RoomBounds(stock: int, used: int, limit: int, repeated: int)
    requires 0 <= used <= stock && 0 <= repeated <= limit
    ensures Room(stock, used, limit, repeated) >= 0
    ensures Room(stock, used, limit, repeated) == 0 ==> repeated == limit
    ensures Room(stock, 0, limit, 0) == (stock + 1) * limit
  {
    Expand(stock - used, 0, limit);
    Expand(stock, 1, limit);
  }

  lemma RoomSpends(stock: int, a: int, b: int, before: int, after: int, limit: int)
    requires 0 <= a <= b && 0 <= before < limit
    requires (b > a && after == 0) || after == before + 1
    ensures Room(stock, b, limit, after) + 1 <= Room(stock, a, limit, before)
  {
    Expand(stock - b, b - a, limit);
    assert stock - a == stock - b + (b - a);
    if b > a {
      Expand(b - a - 1, 1, limit);
    }
  }

  ghost predicate Stocked(s: State, trees: set<string>, prints: set<string>) {
    s.progress.Some? ==> WithinStock(Digest(s.progress.value.recentTrees, s.progress.value.recentEvidence, false, false), trees, prints)
  }

  lemma PatienceBounds(s: State, trees: set<string>, prints: set<string>)
    requires Inv(s) && Stocked(s, trees, prints) && s.limits.maxNoProgressBatches > 0
    ensures Patience(s, trees, prints) >= 0
    ensures Patience(s, trees, prints) == 0 ==> s.status == StatusCancelRequested || s.status.Terminal()
  {
    hide Room, GoodEffects, Header, ValidOwnership, ValidBindings;
    var limit, stock := s.limits.maxNoProgressBatches, |trees| + |prints|;
    match s.progress {
      case None => RoomBounds(stock, 0, limit, 0);
      case Some(p) =>
        DistinctFits(p.recentTrees, trees);
        DistinctFits(p.recentEvidence, prints);
        RoomBounds(stock, |p.recentTrees| + |p.recentEvidence|, limit, p.repeatedBatches);
    }
  }

  /** A stale batch either enlarges a window or lengthens the streak by one. */
  lemma AssessStale(p: ProgressState, f: ProgressFrame, trees: set<string>, prints: set<string>)
    requires Digest(p.recentTrees, p.recentEvidence, false, false).Valid() && ValidObservations(f.observations)
    requires WithinStock(Digest(p.recentTrees, p.recentEvidence, false, false), trees, prints)
    requires |trees| <= TREE_WINDOW && |prints| <= EVIDENCE_WINDOW && f.messageSeq <= p.messageSeq
    requires forall i :: 0 <= i < |f.observations| ==> DrawnFrom(f.observations[i], trees, prints)
    requires p.repeatedBatches <= MAX_NO_PROGRESS
    ensures var q := Assess(p, f); var grown := |q.recentTrees| + |q.recentEvidence| - |p.recentTrees| - |p.recentEvidence|;
            && WithinStock(Digest(q.recentTrees, q.recentEvidence, false, false), trees, prints)
            && grown >= 0
            && ((grown > 0 && q.repeatedBatches == 0) || q.repeatedBatches == p.repeatedBatches + 1)
  {
    NoEviction(Digest(p.recentTrees, p.recentEvidence, false, false), f.observations, trees, prints);
  }

  lemma ContextPatience(s: State, e: Event, trees: set<string>, prints: set<string>)
    requires ValidProgressState(s) && Stocked(s, trees, prints) && |trees| <= TREE_WINDOW && |prints| <= EVIDENCE_WINDOW
    requires s.progress.Some? ==> s.progress.value.repeatedBatches < s.limits.maxNoProgressBatches
    requires s.limits.maxNoProgressBatches > 0 && ObserveProgress(s, e).Success?
    requires e.progress.Some? ==>
               && (s.progress.Some? ==> e.progress.value.messageSeq <= s.progress.value.messageSeq)
               && forall i :: 0 <= i < |e.progress.value.observations| ==> DrawnFrom(e.progress.value.observations[i], trees, prints)
    ensures var n := ObserveProgress(s, e).value;
            && Stocked(n, trees, prints)
            && Patience(n, trees, prints) + (if s.stepSeq > 0 then 1 else 0) <= Patience(s, trees, prints)
  {
    hide Room, ValidObservation, ValidHash;
    var n := ObserveProgress(s, e).value;
    if s.stepSeq > 0 {
      var p, f, q := s.progress.value, e.progress.value, n.progress.value;
      assert q == Assess(p, f);
      AssessStale(p, f, trees, prints);
      RoomSpends(|trees| + |prints|, |p.recentTrees| + |p.recentEvidence|, |q.recentTrees| + |q.recentEvidence|,
                 p.repeatedBatches, q.repeatedBatches, s.limits.maxNoProgressBatches);
    } else {
      assert n.progress.value == ProgressState(0, n.progress.value.messageSeq, 0, Initial, [], []);
    }
  }

  lemma ContextBranch(s: State, e: Event)
    requires ValidProgressState(s) && e.kind == EventContextBuilt && Branch(s, e).Accepted?
    ensures ObserveProgress(s, e).Success? && s.status == StatusRunning
    ensures Branch(s, e).next.progress == ObserveProgress(s, e).value.progress
  {
    hide BudgetReached;
  }

  lemma ContextProgress(s: State, e: Event)
    requires Inv(s) && Advances(s, e) && e.kind == EventContextBuilt
    ensures ValidProgressState(s) && ObserveProgress(s, e).Success?
    ensures s.progress.Some? ==> s.progress.value.repeatedBatches < s.limits.maxNoProgressBatches
    ensures Transition(s, e).next.progress == ObserveProgress(s, e).value.progress
  {
    hide Branch, SnapshotError, ObserveProgress, GoodEffects, Placement;
    ValidationNeverRejects(s, e);
    ContextBranch(s, e);
  }

  lemma StepPatience(s: State, e: Event, trees: set<string>, prints: set<string>)
    requires Inv(s) && Advances(s, e) && Stocked(s, trees, prints) && s.limits.maxNoProgressBatches > 0
    requires |trees| <= TREE_WINDOW && |prints| <= EVIDENCE_WINDOW
    requires e.kind == EventContextBuilt ==> Stale(EntryFor(s, e), trees, prints)
    ensures var x := EntryFor(s, e);
            && x.after.limits == s.limits && Stocked(x.after, trees, prints)
            && Patience(x.after, trees, prints) + (if ProgressEntry(x) then 1 else 0) <= Patience(s, trees, prints)
  {
    hide Transition, Inv, ObserveProgress, LedgerStep, ApprovalStep, RevisionStep, Room, DrawnFrom;
    TransitionFacts(s, e);
    if e.kind == EventContextBuilt {
      ContextProgress(s, e);
      ContextPatience(s, e, trees, prints);
    }
  }

  ghost predicate AllStale(t: seq<Entry>, trees: set<string>, prints: set<string>) {
    forall k :: 0 <= k < |t| && t[k].event.kind == EventContextBuilt ==> Stale(t[k], trees, prints)
  }

  ghost function FrameBound(limit: uint64, trees: set<string>, prints: set<string>): int {
    (|trees| + |prints| + 1) * limit
  }

  lemma FullPatience(s: State, trees: set<string>, prints: set<string>)
    requires s.progress.None?
    ensures Patience(s, trees, prints) == FrameBound(s.limits.maxNoProgressBatches, trees, prints)
  {
    RoomBounds(|trees| + |prints|, 0, s.limits.maxNoProgressBatches, 0);
  }

  ghost predicate WithinPatience(t: seq<Entry>, s: State, bound: int, trees: set<string>, prints: set<string>) {
    && s.limits.maxNoProgressBatches > 0 && Stocked(s, trees, prints)
    && Count(t, ProgressEntry) + Patience(s, trees, prints) <= bound
  }

  lemma PatienceExtends(t: seq<Entry>, x: Entry, bound: int, trees: set<string>, prints: set<string>)
    requires WithinPatience(t, x.before, bound, trees, prints)
    requires x.after.limits == x.before.limits && Stocked(x.after, trees, prints)
    requires Patience(x.after, trees, prints) + (if ProgressEntry(x) then 1 else 0) <= Patience(x.before, trees, prints)
    ensures WithinPatience(t + [x], x.after, bound, trees, prints)
  {
    hide Patience, Stocked;
    CountStep(t, x, ProgressEntry);
  }

  lemma SamePatience(t: seq<Entry>, a: State, b: State, bound: int, trees: set<string>, prints: set<string>)
    requires a.progress == b.progress && a.limits == b.limits && WithinPatience(t, a, bound, trees, prints)
    ensures WithinPatience(t, b, bound, trees, prints)
  {}

  lemma {:induction false} PatienceSpent(s: State, inputs: seq<Input>, trees: set<string>, prints: set<string>)
    requires Fresh(s) && s.limits.maxNoProgressBatches > 0 && |trees| <= TREE_WINDOW && |prints| <= EVIDENCE_WINDOW
    requires AllStale(Trace(s, inputs), trees, prints)
    ensures WithinPatience(Trace(s, inputs), Run(s, inputs), FrameBound(s.limits.maxNoProgressBatches, trees, prints), trees, prints)
  {
    FreshInv(s);
    var bound := FrameBound(s.limits.maxNoProgressBatches, trees, prints);
    FullPatience(s, trees, prints);
    assert WithinPatience([], s, bound, trees, prints);
    hide Transition, Inv, Fresh, Stale, Patience, Stocked, FrameBound;
    if inputs != [] {
      var earlier, last := inputs[..|inputs| - 1], inputs[|inputs| - 1];
      TraceStep(s, inputs);
      var before, t := Run(s, earlier), Trace(s, earlier);
      assert forall k :: 0 <= k < |t| ==> t[k] == Trace(s, inputs)[k];
      PatienceSpent(s, earlier, trees, prints);
      RunInv(s, earlier);
      if last.Offer? && Advances(before, last.event) {
        var x := EntryFor(before, last.event);
        assert x == Trace(s, inputs)[|t|];
        StepPatience(before, last.event, trees, prints);
        PatienceExtends(t, x, bound, trees, prints);
      } else {
        SamePatience(t, before, Run(s, inputs), bound, trees, prints);
      }
    }
  }

  /** Batches drawn from `trees` and `prints`, without a new message or an
      indeterminate result, exhaust the run's patience: at most
      (|trees| + |prints| + 1) * limit progress frames are ever accepted, and a run
      that has used them all has been told to stop. */
  lemma RepetitionStops(s: State, inputs: seq<Input>, trees: set<string>, prints: set<string>)
    requires Fresh(s) && s.limits.maxNoProgressBatches > 0 && |trees| <= TREE_WINDOW && |prints| <= EVIDENCE_WINDOW
    requires AllStale(Trace(s, inputs), trees, prints)
    ensures var bound, frames := FrameBound(s.limits.maxNoProgressBatches, trees, prints), Count(Trace(s, inputs), ProgressEntry);
            && frames <= bound
            && (frames == bound ==> Run(s, inputs).status == StatusCancelRequested || Run(s, inputs).status.Terminal())
  {
    hide Transition, Patience, FrameBound;
    FreshInv(s);
    RunInv(s, inputs);
    PatienceSpent(s, inputs, trees, prints);
    PatienceBounds(Run(s, inputs), trees, prints);
  }
}
