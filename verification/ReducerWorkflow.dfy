/** The workflow over whole runs: what an accepted event asks for next, how a tool batch
    is worked off, and what the counters count (internal/runtime/reducer.go). */
module ReducerWorkflow {
  import opened Domain
  import opened RunTypes
  import opened Progress
  import opened Reducer
  import opened ReducerInvariant
  import opened ReducerRuns
  import opened ReducerRoutes

  /** An entry of a run: an accepted event on a snapshot the run had reached, with the
      route it took. */
  ghost predicate Step(x: Entry) {
    && Inv(x.before) && !x.before.status.Terminal() && !RepeatedCancel(x.before, x.event) && Admissible(x.before, x.event)
    && ValidProgressState(x.before) && Takes(x.before, x.event) && x.after.version == x.before.version + 1
    && x.before.version < MAX_UINT64 && Route(x.before, x.event, x.after.(version := x.before.version), x.commands)
  }

  lemma StepOf(s: State, e: Event)
    requires Inv(s) && Advances(s, e)
    ensures Step(EntryFor(s, e))
  {
    hide Inv, Sound, Takes, Route, SnapshotError, Transition, AdmissionError, Branch, Admissible;
    SoundOf(s);
    SoundIsValid(s);
    StepRoutes(s, e);
    AdmissionMeans(s, e);
    NotOver(s, e);
  }

  lemma SoundOf(s: State)
    requires Inv(s)
    ensures Sound(s)
  {}

  lemma NotOver(s: State, e: Event)
    ensures AdmissionError(s, e).None? ==> !s.status.Terminal()
    ensures AdmissionError(s, e).Some? ==> !Transition(s, e).Accepted?
  {}

  lemma {:induction false} Steps(s: State, inputs: seq<Input>)
    requires Fresh(s)
    ensures forall k :: 0 <= k < |Trace(s, inputs)| ==> Step(Trace(s, inputs)[k])
  {
    hide Fresh, Transition, Step, Inv, Run, Trace, Advances;
    FreshInv(s);
    if inputs != [] {
      var earlier, last := inputs[..|inputs| - 1], inputs[|inputs| - 1];
      Steps(s, earlier);
      RunInv(s, earlier);
      TraceStep(s, inputs);
      if last.Offer? && Advances(Run(s, earlier), last.event) {
        StepOf(Run(s, earlier), last.event);
      }
    } else {
      NoTrace(s);
    }
  }

  lemma NoTrace(s: State)
    ensures Trace(s, []) == [] && Run(s, []) == s
  {}

  // ----- the command of every stage --------------------------------------------------------------

  /** What a snapshot needs done: its stage's own command while it runs, a stop while it
      stops, the question while it waits, an adoption or an inspection while it is parked,
      the announcement once it is over, and nothing while it queues. */
  ghost function Needs(s: State): seq<Command> {
    match s.status
    case StatusRunning =>
      if s.stage == StageExecuteEffects then (if s.pendingEffect.Some? then [CommandExecuteEffect(s.pendingEffect.value)] else [])
      else if StageCommand(s.stage).Some? then [StageCommand(s.stage).value] else []
    case StatusNeedsReconciliation =>
      if s.stage == StageAdoptWorkspace then [CommandAdoptWorkspace]
      else if Unsettled(s.pendingEffect) then [CommandInspectEffect(s.pendingEffect.value)] else []
    case StatusWaitingApproval =>
      if s.pendingEffect.Some? && s.approval.Some? then [CommandRequestApproval(s.pendingEffect.value, s.approval.value)] else []
    case StatusCancelRequested => [CommandStopExecution]
    case StatusQueued => []
    case NoStatus => []
    case _ => [CommandPublishTerminal]
  }

  /** Every accepted event asks for exactly what the new snapshot needs; a resumption only
      frees the lease. */
  ghost predicate AsksForIt(x: Entry) {
    x.commands == if x.event.kind == EventResumeRequested then [] else Needs(x.after)
  }

  lemma ContinuesAsks(s: State, at: Instant, n: State, c: seq<Command>)
    requires Continues(s, at, n, c) && s.status == StatusRunning
    ensures c == Needs(n)
  {}

  lemma SettlesAsks(s: State, r: Receipt, at: Instant, n: State, c: seq<Command>)
    requires s.pendingEffect.Some? && SettlesBy(s, r, at, n, c)
    ensures c == Needs(n)
  {
    hide Continues;
    if s.status != StatusCancelRequested {
      ContinuesAsks(s.(workspaceRevision := r.afterRevision, reconciliationRevision := 0, outputRef := r.ref, approval := None,
                       verification := VerificationUnverified, verificationReportRef := "", verificationRevision := 0,
                       status := StatusRunning, failureReason := "", pendingEffect := None,
                       remainingEffects := if r.status == EffectSucceeded then s.remainingEffects else []), at, n, c);
    }
  }

  /** Over any run, each accepted event emits exactly the command its new stage stands for. */
  lemma EveryStageAsks(s: State, inputs: seq<Input>)
    requires Fresh(s)
    ensures forall k :: 0 <= k < |Trace(s, inputs)| ==> AsksForIt(Trace(s, inputs)[k])
  {
    hide Fresh, Trace, Step, AsksForIt;
    Steps(s, inputs);
    forall k | 0 <= k < |Trace(s, inputs)| ensures AsksForIt(Trace(s, inputs)[k]) {
      StepMoves(Trace(s, inputs)[k]);
    }
  }

  // ----- the edges of the workflow ------------------------------------------------------------------

  /** From where, and to which stage, an event moves a run that goes on running. */
  ghost predicate Edge(x: Entry) {
    x.after.status == StatusRunning ==>
      match x.event.kind
      case EventWorkspaceReady => Running(x.before, StageInitialize) && x.after.stage == StageBuildContext
      case EventContextBuilt => Running(x.before, StageBuildContext) && x.after.stage == StageModel
      case EventModelCompleted =>
        && Running(x.before, StageModel) && (x.after.stage == StageVerify <==> x.event.finish)
        && (x.after.stage == StageValidateTools <==> !x.event.finish)
      case EventToolsValidated => Running(x.before, StageValidateTools) && x.after.stage == StageExecuteEffects
      case EventEffectCompleted => Running(x.before, StageExecuteEffects) && AfterReceipt(x)
      case EventReconciled => x.before.status == StatusNeedsReconciliation && AfterReceipt(x)
      case EventResultsIngested => Running(x.before, StageIngestResults) && x.after.stage == StageBuildContext
      case EventVerificationCompleted =>
        && Running(x.before, StageVerify) && x.event.verification.Some?
        && x.after.stage == (if Passes(x.event.verification.value, x.after) then StageFinalize else StageBuildContext)
      case EventClaimed => x.after.stage == if x.before.workspaceRevision == 0 then StageInitialize else StageAdoptWorkspace
      case EventWorkspaceAdopted => x.before.stage == StageAdoptWorkspace && x.after.stage == x.before.resumeStage
      case _ => false
  }

  /** A receipt ends the batch when it reports no success or was the last, else the next
      effect runs. */
  ghost predicate AfterReceipt(x: Entry) {
    && x.event.receipt.Some?
    && if x.event.receipt.value.status == EffectSucceeded && x.before.remainingEffects != []
       then x.after.stage == StageExecuteEffects && x.after.remainingEffects == x.before.remainingEffects[1..]
       else x.after.stage == StageIngestResults && x.after.remainingEffects == [] && x.after.pendingEffect.None?
  }

  /** A receipt of a failed or cancelled effect, outside a stop, clears the rest of the
      batch: nothing is left to run and its results are read. */
  ghost predicate DropsBatch(x: Entry) {
    Settles(x) && x.before.status != StatusCancelRequested && x.event.receipt.Some? && x.event.receipt.value.status != EffectSucceeded ==>
      && x.after.remainingEffects == [] && x.after.pendingEffect.None? && x.after.approval.None?
      && Running(x.after, StageIngestResults) && x.commands == [CommandIngestResults]
  }

  lemma ContinuesEdge(s: State, at: Instant, n: State, c: seq<Command>)
    requires Continues(s, at, n, c) && s.status == StatusRunning && s.pendingEffect.None?
    ensures n.status == StatusRunning ==>
      if s.remainingEffects == [] then n == s.(stage := StageIngestResults)
      else n.stage == StageExecuteEffects && n.remainingEffects == s.remainingEffects[1..]
    ensures s.remainingEffects == [] ==> n.status == StatusRunning && c == [CommandIngestResults]
  {}

  /** The route of an accepted receipt. */
  lemma SettleStep(x: Entry)
    requires Step(x) && Settles(x)
    ensures x.event.receipt.Some? && Answers(x.before, x.event.receipt.value) && x.before.pendingEffect.Some?
    ensures SettlesBy(x.before, x.event.receipt.value, x.event.at, x.after.(version := x.before.version), x.commands)
    ensures x.event.kind == EventEffectCompleted ==> Running(x.before, StageExecuteEffects)
    ensures x.event.kind == EventReconciled ==> x.before.status == StatusCancelRequested || x.before.status == StatusNeedsReconciliation
    ensures x.after.version == x.before.version + 1
  {
    hide Inv, ValidProgressState, GoodBatch, SettlesBy;
  }

  lemma SettlesEdge(x: Entry)
    requires Step(x) && Settles(x)
    ensures x.event.receipt.Some? && (x.before.status != StatusCancelRequested && x.after.status == StatusRunning ==> AfterReceipt(x)) && DropsBatch(x)
  {
    hide Continues, Step, Answers;
    SettleStep(x);
    var s, e, n := x.before, x.event, x.after.(version := x.before.version);
    var r := e.receipt.value;
    if s.status != StatusCancelRequested {
      ContinuesEdge(s.(workspaceRevision := r.afterRevision, reconciliationRevision := 0, outputRef := r.ref, approval := None,
                       verification := VerificationUnverified, verificationReportRef := "", verificationRevision := 0,
                       status := StatusRunning, failureReason := "", pendingEffect := None,
                       remainingEffects := if r.status == EffectSucceeded then s.remainingEffects else []), e.at, n, x.commands);
    }
  }

  /** Over any run: a finishing response goes to verification and any other to its tools,
      a failed or cancelled receipt clears the batch, and every other event moves along
      its one edge. */
  lemma WorkflowHolds(s: State, inputs: seq<Input>)
    requires Fresh(s)
    ensures forall k :: 0 <= k < |Trace(s, inputs)| ==> Edge(Trace(s, inputs)[k]) && DropsBatch(Trace(s, inputs)[k])
  {
    hide Fresh, Trace, Step, Edge, DropsBatch;
    Steps(s, inputs);
    forall k | 0 <= k < |Trace(s, inputs)| ensures Edge(Trace(s, inputs)[k]) && DropsBatch(Trace(s, inputs)[k]) {
      StepMoves(Trace(s, inputs)[k]);
    }
  }

  // ----- a batch is worked off in order --------------------------------------------------------------

  ghost function Ids(effects: seq<Effect>): seq<string> { seq(|effects|, i requires 0 <= i < |effects| => effects[i].id) }

  /** What the latest accepted batch asked for. */
  ghost function Batch(t: seq<Entry>): seq<string> {
    if t == [] then []
    else if t[|t| - 1].event.kind == EventToolsValidated then Ids(t[|t| - 1].event.effects)
    else Batch(t[..|t| - 1])
  }

  ghost function Sending(c: seq<Command>): seq<string> { if c != [] && c[0].CommandExecuteEffect? then [c[0].effect.id] else [] }

  /** The effects executed since that batch was accepted. */
  ghost function Sent(t: seq<Entry>): seq<string> {
    if t == [] then []
    else (if t[|t| - 1].event.kind == EventToolsValidated then [] else Sent(t[..|t| - 1])) + Sending(t[|t| - 1].commands)
  }

  ghost predicate Breaks(x: Entry) { Settles(x) && x.event.receipt.Some? && x.event.receipt.value.status != EffectSucceeded }

  /** One of them was not a success. */
  ghost predicate Broken(t: seq<Entry>) {
    t != [] && t[|t| - 1].event.kind != EventToolsValidated && (Broken(t[..|t| - 1]) || Breaks(t[|t| - 1]))
  }

  ghost predicate Live(s: State) { !s.status.Terminal() && s.status != StatusCancelRequested }

  /** The effects still to be executed. */
  ghost function Left(s: State): seq<string> {
    (if s.pendingEffect.Some? && s.pendingEffect.value.status == EffectPlanned then [s.pendingEffect.value.id] else []) + Ids(s.remainingEffects)
  }

  /** An entry takes what it sends from the front of what is left; a new batch replaces
      it, a failure clears it, and a stopping run sends nothing. */
  ghost predicate BatchStep(x: Entry) {
    && (Live(x.after) ==> Live(x.before))
    && (!Live(x.after) ==> Sending(x.commands) == [])
    && (Live(x.after) ==>
          Sending(x.commands) + Left(x.after)
          == if x.event.kind == EventToolsValidated then Ids(x.event.effects) else if Breaks(x) then [] else Left(x.before))
  }

  lemma ContinuesBatch(s: State, at: Instant, n: State, c: seq<Command>)
    requires Continues(s, at, n, c) && s.status == StatusRunning && s.pendingEffect.None?
    ensures (Live(n) ==> Sending(c) + Left(n) == Ids(s.remainingEffects)) && (!Live(n) ==> Sending(c) == [])
  {
    if s.remainingEffects != [] {
      assert s.remainingEffects == [s.remainingEffects[0]] + s.remainingEffects[1..];
      assert Ids(s.remainingEffects) == [s.remainingEffects[0].id] + Ids(s.remainingEffects[1..]);
    }
  }

  lemma SettlesBatch(x: Entry)
    requires Step(x) && Settles(x)
    ensures BatchStep(x)
  {
    hide Continues, Step, Ids;
    SettleStep(x);
    var s, e, n := x.before, x.event, x.after.(version := x.before.version);
    var r := e.receipt.value;
    if s.status != StatusCancelRequested {
      ContinuesBatch(s.(workspaceRevision := r.afterRevision, reconciliationRevision := 0, outputRef := r.ref, approval := None,
                        verification := VerificationUnverified, verificationReportRef := "", verificationRevision := 0,
                        status := StatusRunning, failureReason := "", pendingEffect := None,
                        remainingEffects := if r.status == EffectSucceeded then s.remainingEffects else []), e.at, n, x.commands);
      NoIds();
    }
  }

  lemma NoIds()
    ensures Ids([]) == []
  {}

  /** The executed effects are a prefix of the batch, in its order; until one of them does
      not succeed, executed and left make up the batch, and after that nothing is left. */
  ghost predicate InOrder(t: seq<Entry>, s: State) {
    && Sent(t) <= Batch(t)
    && (Live(s) ==> if Broken(t) then Left(s) == [] else Sent(t) + Left(s) == Batch(t))
  }

  lemma InOrderExtends(t: seq<Entry>, x: Entry)
    requires InOrder(t, x.before) && BatchStep(x)
    ensures InOrder(t + [x], x.after)
  {
    hide Ids, Left, Live, Sending, Breaks;
    assert (t + [x])[..|t|] == t;
    if Live(x.after) && x.event.kind != EventToolsValidated {
      assert Sent(t + [x]) + Left(x.after) == Sent(t) + (Sending(x.commands) + Left(x.after));
    }
  }

  /** Every run works a batch off in order, each effect once, up to the first that does
      not succeed; the results are read when all were executed or one was not a success. */
  lemma {:induction false} BatchInOrder(s: State, inputs: seq<Input>)
    requires Fresh(s)
    ensures InOrder(Trace(s, inputs), Run(s, inputs))
    ensures Running(Run(s, inputs), StageIngestResults) && !Broken(Trace(s, inputs)) ==> Sent(Trace(s, inputs)) == Batch(Trace(s, inputs))
  {
    hide Fresh, Transition, Step, BatchStep, Inv, Run, Trace, InOrder;
    FreshInv(s);
    if inputs != [] {
      var earlier, last := inputs[..|inputs| - 1], inputs[|inputs| - 1];
      BatchInOrder(s, earlier);
      RunInv(s, earlier);
      TraceStep(s, inputs);
      if last.Offer? && Advances(Run(s, earlier), last.event) {
        EntryMoves(Run(s, earlier), last.event);
        InOrderExtends(Trace(s, earlier), EntryFor(Run(s, earlier), last.event));
      } else if last.LeaseClock? {
        InOrderLease(Trace(s, earlier), Run(s, earlier), last.until);
      }
    } else {
      NoTrace(s);
      FreshInOrder(s);
    }
    RunInv(s, inputs);
    NothingLeft(Run(s, inputs), Trace(s, inputs));
  }

  lemma InOrderLease(t: seq<Entry>, s: State, until: Instant)
    ensures InOrder(t, s) ==> InOrder(t, s.(lease := s.lease.(until := until)))
  {}

  lemma FreshInOrder(s: State)
    requires Fresh(s)
    ensures InOrder([], s)
  {
    hide SnapshotError;
  }

  lemma NothingLeft(s: State, t: seq<Entry>)
    requires Inv(s) && InOrder(t, s)
    ensures Running(s, StageIngestResults) && !Broken(t) ==> Sent(t) == Batch(t)
  {
    hide Sound, Sent, Batch, Broken;
    NoIds();
    if Running(s, StageIngestResults) {
      assert BatchFree(EffectiveStage(s));
      assert Left(s) == [];
    }
  }

  // ----- what the counters count -------------------------------------------------------------------------

  /** The cost of the model calls whose completion was accepted. */
  ghost function Paid(t: seq<Entry>): int {
    if t == [] then 0
    else Paid(t[..|t| - 1]) + if t[|t| - 1].event.kind == EventModelCompleted then t[|t| - 1].event.cost else 0
  }

  /** A context that opened a model round. */
  predicate OpensRound(x: Entry) { x.event.kind == EventContextBuilt && x.after.status == StatusRunning }

  ghost predicate Accounted(t: seq<Entry>, s: State) {
    && s.cost == Paid(t) && s.modelRounds == s.stepSeq == Count(t, OpensRound) && s.version == 1 + |t|
  }

  ghost predicate AccountStep(x: Entry) {
    && x.after.cost == x.before.cost + (if x.event.kind == EventModelCompleted then x.event.cost else 0)
    && x.after.modelRounds == x.before.modelRounds + (if OpensRound(x) then 1 else 0)
    && x.after.stepSeq == x.before.stepSeq + (if OpensRound(x) then 1 else 0)
    && x.after.version == x.before.version + 1
  }

  /** All of the above of one entry. */
  ghost predicate Moves(x: Entry) { AsksForIt(x) && Edge(x) && DropsBatch(x) && BatchStep(x) && AccountStep(x) }

  lemma Stands(s: State)
    requires Inv(s) && !s.status.Terminal()
    ensures s.status == StatusCancelRequested ==> s.stopTarget.Terminal()
    ensures (s.workspaceRevision == 0 <==> s.stage == StageInitialize) && (s.status == StatusNeedsReconciliation ==> s.workspaceRevision != 0)
    ensures s.status == StatusNeedsReconciliation && s.stage == StageAdoptWorkspace ==> s.resumeStage == StageReconcile
    ensures Running(s, StageValidateTools) ==> s.pendingEffect.None? && s.remainingEffects == []
  {}

  lemma SettleMoves(x: Entry)
    requires Step(x) && Settles(x)
    ensures Moves(x)
  {
    hide Step, SettlesBy, BatchStep, DropsBatch, AfterReceipt, Answers, Needs, AccountStep;
    SettleStep(x);
    SettlesEdge(x);
    SettlesBatch(x);
    SettlesAsks(x.before, x.event.receipt.value, x.event.at, x.after.(version := x.before.version), x.commands);
    SettlesAccounts(x);
  }

  lemma SettlesAccounts(x: Entry)
    requires Step(x) && Settles(x)
    ensures AccountStep(x)
    ensures x.before.status == StatusCancelRequested ==> x.after.status == StatusCancelRequested
    ensures Needs(x.after) == Needs(x.after.(version := x.before.version))
  {
    hide Step, Answers;
    SettleStep(x);
  }

  lemma ToolsMoves(x: Entry)
    requires Step(x) && x.event.kind == EventToolsValidated
    ensures Moves(x)
  {
    hide Inv, ValidProgressState, GoodBatch, Ids;
    Stands(x.before);
    var s := x.before.(outputRef := x.event.outputRef, remainingEffects := x.event.effects);
    ContinuesAsks(s, x.event.at, x.after.(version := x.before.version), x.commands);
    ContinuesEdge(s, x.event.at, x.after.(version := x.before.version), x.commands);
    ContinuesBatch(s, x.event.at, x.after.(version := x.before.version), x.commands);
  }

  lemma AdoptMoves(x: Entry)
    requires Step(x) && x.event.kind == EventWorkspaceAdopted
    ensures Moves(x)
  {
    hide Inv, ValidProgressState, AdoptionRoute, Resumes, Ids, Left, Needs;
    Stands(x.before);
    AdoptionMoves(x.before, x.event, x.after.(version := x.before.version), x.commands);
    LeftOf(x.after, x.before.version);
  }

  lemma LeftOf(s: State, version: uint64)
    ensures Left(s) == Left(s.(version := version)) && Needs(s) == Needs(s.(version := version))
  {}

  lemma AdoptionMoves(s: State, e: Event, n: State, c: seq<Command>)
    requires e.stop.Some? && AdoptionRoute(s, e, n, c) && s.stage == StageAdoptWorkspace
    requires s.status == StatusRunning || (s.status == StatusNeedsReconciliation && s.resumeStage == StageReconcile)
    requires Unsettled(s.pendingEffect) || e.stop.value.workspaceRevision != s.workspaceRevision || Resumes(s, e.at)
    ensures c == Needs(n) && n.cost == s.cost && n.modelRounds == s.modelRounds && n.stepSeq == s.stepSeq
    ensures n.status == StatusRunning ==> n.stage == s.resumeStage
    ensures n.status == StatusRunning || n.status == StatusNeedsReconciliation || n.status == StatusCancelRequested
    ensures if n.status == StatusCancelRequested then Sending(c) == [] else Sending(c) + Left(n) == Left(s)
  {
    hide Left, StageCommand, Resumes;
    if Unsettled(s.pendingEffect) || e.stop.value.workspaceRevision != s.workspaceRevision {
      LeftSame(n, s);
    } else {
      ResumptionMoves(s, e, n, c);
    }
  }

  /** Where an adopted run resumes: at a stop, with its planned effect, or at its stage. */
  ghost predicate Resumed(back: State, n: State, c: seq<Command>) {
    || StopsAt(back, n, c, StatusBudgetExhausted, "budget reached while workspace was suspended")
    || (back.pendingEffect.Some? && back.pendingEffect.value.status == EffectPlanned && back.stage == StageExecuteEffects
        && Leaves(back, n, c, back.pendingEffect.value))
    || (n == back && StageCommand(back.stage).Some? && c == [StageCommand(back.stage).value])
  }

  lemma ResumptionCases(s: State, e: Event, n: State, c: seq<Command>)
    requires e.stop.Some? && AdoptionRoute(s, e, n, c) && !Unsettled(s.pendingEffect) && e.stop.value.workspaceRevision == s.workspaceRevision
    requires Resumes(s, e.at)
    ensures Resumed(s.(stage := s.resumeStage, resumeStage := NoStage), n, c)
  {
    hide Late, Dear, CallsUsed, Binds, Leaves, StopsAt;
  }

  lemma ResumedMoves(s: State, n: State, c: seq<Command>)
    requires s.status == StatusRunning && Resumed(s, n, c)
    ensures c == Needs(n) && n.cost == s.cost && n.modelRounds == s.modelRounds && n.stepSeq == s.stepSeq
    ensures n.status == StatusRunning ==> n.stage == s.stage
    ensures n.status == StatusRunning || n.status == StatusCancelRequested
    ensures if n.status == StatusCancelRequested then Sending(c) == [] else Sending(c) + Left(n) == Left(s)
  {
    hide Leaves, Left, StopsAt;
    if StopsAt(s, n, c, StatusBudgetExhausted, "budget reached while workspace was suspended") {
      StopMeans(s, n, c, StatusBudgetExhausted, "budget reached while workspace was suspended");
    } else if s.pendingEffect.Some? && s.pendingEffect.value.status == EffectPlanned && Leaves(s, n, c, s.pendingEffect.value) {
      LeavesMoves(s, n, c);
    }
  }

  lemma ResumptionMoves(s: State, e: Event, n: State, c: seq<Command>)
    requires e.stop.Some? && AdoptionRoute(s, e, n, c) && !Unsettled(s.pendingEffect) && e.stop.value.workspaceRevision == s.workspaceRevision
    requires (s.status == StatusRunning || (s.status == StatusNeedsReconciliation && s.resumeStage == StageReconcile)) && Resumes(s, e.at)
    ensures c == Needs(n) && n.cost == s.cost && n.modelRounds == s.modelRounds && n.stepSeq == s.stepSeq
    ensures n.status == StatusRunning ==> n.stage == s.resumeStage
    ensures n.status == StatusRunning || n.status == StatusCancelRequested
    ensures if n.status == StatusCancelRequested then Sending(c) == [] else Sending(c) + Left(n) == Left(s)
  {
    NotParked(s, e.at);
    hide AdoptionRoute, Resumes, Resumed, Left, Needs, Unsettled;
    var back := s.(stage := s.resumeStage, resumeStage := NoStage);
    LeftSame(back, s);
    ResumptionCases(s, e, n, c);
    ResumedMoves(back, n, c);
  }

  lemma NotParked(s: State, at: Instant)
    requires Resumes(s, at)
    ensures s.resumeStage != StageReconcile
  {}

  lemma LeftSame(a: State, b: State)
    requires a.pendingEffect == b.pendingEffect && a.remainingEffects == b.remainingEffects
    ensures Left(a) == Left(b)
  {}

  lemma StopMeans(s: State, n: State, c: seq<Command>, target: RunStatus, reason: string)
    requires StopsAt(s, n, c, target, reason)
    ensures n.status == StatusCancelRequested && c == [CommandStopExecution] && n.cost == s.cost && n.modelRounds == s.modelRounds && n.stepSeq == s.stepSeq
  {}

  lemma LeavesMoves(s: State, n: State, c: seq<Command>)
    requires s.status == StatusRunning && s.pendingEffect.Some? && s.pendingEffect.value.status == EffectPlanned
    requires Leaves(s, n, c, s.pendingEffect.value)
    ensures c == Needs(n) && n.cost == s.cost && n.modelRounds == s.modelRounds && n.stepSeq == s.stepSeq
    ensures Running(n, StageExecuteEffects) && Sending(c) + Left(n) == Left(s)
  {
    hide Ids;
  }

  lemma ClaimMoves(x: Entry)
    requires Step(x) && x.event.kind == EventClaimed
    ensures Moves(x)
  {
    hide Inv, ValidProgressState, Ids;
    Stands(x.before);
  }

  lemma ContextMoves(x: Entry)
    requires Step(x) && x.event.kind == EventContextBuilt
    ensures Moves(x)
  {
    hide Inv, ValidProgressState, Ids, Late, Dear, RoundsUsed, Exhausted, FrameFits, Progressed;
  }

  lemma ModelMoves(x: Entry)
    requires Step(x) && x.event.kind == EventModelCompleted
    ensures Moves(x)
  {
    hide Inv, ValidProgressState, Ids, Late, Dear, RoundsUsed, Exhausted, FrameFits, Progressed;
  }

  lemma VerdictMoves(x: Entry)
    requires Step(x) && x.event.kind == EventVerificationCompleted
    ensures Moves(x)
  {
    hide Inv, ValidProgressState, Ids;
  }

  lemma EndMoves(x: Entry)
    requires Step(x) && (x.event.kind == EventFinalized || x.event.kind == EventCancellationConfirmed)
    ensures Moves(x)
  {
    hide Inv, ValidProgressState, Ids;
    Stands(x.before);
  }

  lemma PlainMoves(x: Entry)
    requires Step(x)
    requires x.event.kind == EventCapacityRejected || x.event.kind == EventWorkspaceReady || x.event.kind == EventResultsIngested
    ensures Moves(x)
  {
    hide Inv, ValidProgressState, Ids;
  }

  lemma SuspendMoves(x: Entry)
    requires Step(x) && (x.event.kind == EventEffectUncertain || x.event.kind == EventApprovalDecided)
    ensures Moves(x)
  {
    hide Inv, ValidProgressState, Ids, Binds;
  }

  lemma StopMoves(x: Entry)
    requires Step(x)
    requires x.event.kind == EventCancelRequested || x.event.kind == EventResumeRequested || x.event.kind == EventFailed
      || x.event.kind == EventBudgetReached || x.event.kind == EventUnrecognized
    ensures Moves(x)
  {
    hide Inv, ValidProgressState, Ids, Blank;
  }

  lemma StepMoves(x: Entry)
    requires Step(x)
    ensures Moves(x)
  {
    hide Step, Moves;
    match x.event.kind {
      case EventEffectCompleted => SettleMoves(x);
      case EventReconciled => SettleMoves(x);
      case EventToolsValidated => ToolsMoves(x);
      case EventWorkspaceAdopted => AdoptMoves(x);
      case EventClaimed => ClaimMoves(x);
      case EventContextBuilt => ContextMoves(x);
      case EventModelCompleted => ModelMoves(x);
      case EventVerificationCompleted => VerdictMoves(x);
      case EventFinalized => EndMoves(x);
      case EventCancellationConfirmed => EndMoves(x);
      case EventCapacityRejected => PlainMoves(x);
      case EventWorkspaceReady => PlainMoves(x);
      case EventEffectUncertain => SuspendMoves(x);
      case EventResultsIngested => PlainMoves(x);
      case EventApprovalDecided => SuspendMoves(x);
      case _ => StopMoves(x);
    }
  }

  lemma EntryMoves(s: State, e: Event)
    requires Inv(s) && Advances(s, e)
    ensures Moves(EntryFor(s, e))
  {
    hide Inv, Step, Moves, Transition;
    StepOf(s, e);
    StepMoves(EntryFor(s, e));
  }

  lemma AccountedExtends(t: seq<Entry>, x: Entry)
    requires Accounted(t, x.before) && AccountStep(x)
    ensures Accounted(t + [x], x.after)
  {
    hide Count, Paid;
    CountStep(t, x, OpensRound);
    PaidStep(t, x);
  }

  lemma PaidStep(t: seq<Entry>, x: Entry)
    ensures Paid(t + [x]) == Paid(t) + if x.event.kind == EventModelCompleted then x.event.cost else 0
  {
    assert (t + [x])[..|t|] == t;
  }

  /** Over any run the cost is the sum of the accepted completions' costs, rounds and steps
      count the contexts that opened one, and the version counts the accepted events. */
  lemma {:induction false} CountersCount(s: State, inputs: seq<Input>)
    requires Fresh(s)
    ensures Accounted(Trace(s, inputs), Run(s, inputs))
  {
    hide Fresh, Transition, Step, AccountStep, Inv, Run, Trace, Accounted;
    FreshInv(s);
    if inputs != [] {
      var earlier, last := inputs[..|inputs| - 1], inputs[|inputs| - 1];
      CountersCount(s, earlier);
      RunInv(s, earlier);
      TraceStep(s, inputs);
      if last.Offer? && Advances(Run(s, earlier), last.event) {
        EntryMoves(Run(s, earlier), last.event);
        AccountedExtends(Trace(s, earlier), EntryFor(Run(s, earlier), last.event));
      } else if last.LeaseClock? {
        AccountedLease(Trace(s, earlier), Run(s, earlier), last.until);
      }
    } else {
      NoTrace(s);
      FreshAccounted(s);
    }
  }

  lemma AccountedLease(t: seq<Entry>, s: State, until: Instant)
    ensures Accounted(t, s) ==> Accounted(t, s.(lease := s.lease.(until := until)))
  {}

  lemma FreshAccounted(s: State)
    requires Fresh(s)
    ensures Accounted([], s)
  {
    hide SnapshotError;
  }
}
