/** The no-progress windows over a whole run: each is the newest stretch of a log of
    first observations (internal/runtime/progress.go). */
module ReducerWindows {
  import opened Domain
  import opened RunTypes
  import opened Progress
  import opened Reducer
  import opened ReducerInvariant
  import opened ReducerRuns
  import opened ReducerBounds

  /** The observations an accepted event brought. */
  function Observed(x: Entry): seq<Observation> {
    if ProgressEntry(x) && x.before.limits.maxNoProgressBatches > 0 && x.event.progress.Some?
    then x.event.progress.value.observations else []
  }

  /** The logs of first observations made by the accepted events. */
  ghost function LogsOf(t: seq<Entry>): Logs {
    if t == [] then Logs([], []) else LogAll(LogsOf(t[..|t| - 1]), Observed(t[|t| - 1]))
  }

  /** Both windows are the newest stretches of logs that hold every observation made,
      and repeat a value only after a whole window of others. */
  ghost predicate WindowsLogged(t: seq<Entry>, progress: Option<ProgressState>) {
    var l := LogsOf(t);
    && LogsSpaced(l)
    && (forall k, i :: 0 <= k < |t| && 0 <= i < |Observed(t[k])| ==> InLogs(Observed(t[k])[i], l))
    && match progress
       case None => l == Logs([], [])
       case Some(p) => SuffixOf(p.recentTrees, p.recentEvidence, l)
  }

  /** One accepted event, on the progress record alone. */
  ghost predicate WindowStep(x: Entry) {
    if x.event.kind == EventContextBuilt && x.before.limits.maxNoProgressBatches > 0 then
      if x.before.stepSeq == 0 then
        x.before.progress.None? && x.after.progress.Some? && x.after.progress.value.recentTrees == [] && x.after.progress.value.recentEvidence == []
      else
        && x.before.progress.Some? && x.after.progress.Some? && x.event.progress.Some?
        && Digest(x.before.progress.value.recentTrees, x.before.progress.value.recentEvidence, false, false).Valid()
        && ValidObservations(Observed(x))
        && var d := ObserveAll(Digest(x.before.progress.value.recentTrees, x.before.progress.value.recentEvidence, false, false), Observed(x));
          x.after.progress.value.recentTrees == d.trees && x.after.progress.value.recentEvidence == d.evidence
    else x.after.progress == x.before.progress
  }

  lemma ObserveStep(s: State, e: Event)
    requires ValidProgressState(s) && ObserveProgress(s, e).Success? && e.kind == EventContextBuilt
    ensures WindowStep(Entry(s, e, ObserveProgress(s, e).value, []))
  {
    hide ObserveAll, ValidHash, ValidId;
  }

  lemma EventStep(s: State, e: Event)
    requires Inv(s) && Advances(s, e)
    ensures WindowStep(EntryFor(s, e))
  {
    hide Transition, Inv, ObserveProgress, LedgerStep, ApprovalStep, RevisionStep, ObserveAll, ValidObservations, ValidWindow;
    TransitionFacts(s, e);
    if e.kind == EventContextBuilt {
      ContextProgress(s, e);
      ObserveStep(s, e);
    }
  }

  lemma LogsStep(t: seq<Entry>, x: Entry)
    ensures LogsOf(t + [x]) == LogAll(LogsOf(t), Observed(x))
  {
    assert (t + [x])[..|t|] == t;
  }

  lemma WindowsExtend(t: seq<Entry>, x: Entry)
    requires WindowsLogged(t, x.before.progress) && WindowStep(x)
    ensures WindowsLogged(t + [x], x.after.progress)
  {
    hide LogAll, ObserveAll, LogsSpaced, SuffixOf, InLogs, ValidWindow, ValidObservation, LogsOf;
    var l, os := LogsOf(t), Observed(x);
    LogsStep(t, x);
    LogAllFacts(l, os);
    var m := LogsOf(t + [x]);
    forall k, i | 0 <= k < |t + [x]| && 0 <= i < |Observed((t + [x])[k])| ensures InLogs(Observed((t + [x])[k])[i], m) {
      if k < |t| {
        assert InLogs(Observed(t[k])[i], l);
        StillInLogs(Observed(t[k])[i], l, m);
      }
    }
    if os == [] {
      NothingLogged(l);
    }
    if x.event.kind == EventContextBuilt && x.before.limits.maxNoProgressBatches > 0 {
      if x.before.stepSeq == 0 {
        EmptySuffix();
      } else {
        var p := x.before.progress.value;
        ObserveAllSuffix(Digest(p.recentTrees, p.recentEvidence, false, false), l, os);
      }
    }
  }

  lemma StillInLogs(o: Observation, l: Logs, m: Logs)
    requires InLogs(o, l) && LogsExtend(l, m)
    ensures InLogs(o, m)
  {}

  lemma NothingLogged(l: Logs)
    ensures LogAll(l, []) == l
  {}

  lemma EmptySuffix()
    ensures SuffixOf([], [], Logs([], [])) && LogsSpaced(Logs([], []))
  {}

  /** In every state a run reaches, each window is exactly the newest min(capacity,
      length) entries of the log of first observations of the whole run. */
  lemma {:induction false} WindowsAreLogSuffixes(s: State, inputs: seq<Input>)
    requires Fresh(s)
    ensures WindowsLogged(Trace(s, inputs), Run(s, inputs).progress)
  {
    FreshInv(s);
    hide Transition, Inv, Fresh, WindowStep;
    if inputs == [] {
      EmptySuffix();
    } else {
      hide WindowsLogged;
      var earlier, last := inputs[..|inputs| - 1], inputs[|inputs| - 1];
      TraceStep(s, inputs);
      WindowsAreLogSuffixes(s, earlier);
      RunInv(s, earlier);
      var before := Run(s, earlier);
      if last.Offer? && Advances(before, last.event) {
        EventStep(before, last.event);
        WindowsExtend(Trace(s, earlier), EntryFor(before, last.event));
      }
    }
  }
}
