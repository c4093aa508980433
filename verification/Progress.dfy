/** Bounded no-progress detection (internal/runtime/progress.go). */
module Progress {
  import opened Domain
  import opened RunTypes

  const POLICY_VERSION: nat := 1
  const EVIDENCE_WINDOW: nat := 512
  const TREE_WINDOW: nat := 32
  const MAX_MESSAGES: nat := 64
  const MAX_OBSERVATIONS: nat := 130
  const MAX_NO_PROGRESS: nat := 20

  predicate HexDigit(c: char) { '0' <= c <= '9' || 'a' <= c <= 'f' }

  /** Lower-case hexadecimal of exactly 32 bytes. */
  predicate ValidHash(s: string) {
    |s| == 64 && forall i :: 0 <= i < |s| ==> HexDigit(s[i])
  }

  /** A window holds valid hashes, each at most once. */
  predicate ValidWindow(list: seq<string>) {
    && (forall i :: 0 <= i < |list| ==> ValidHash(list[i]))
    && (forall i, j :: 0 <= i < j < |list| ==> list[i] != list[j])
  }

  predicate ValidProgress(limit: uint64, stepSeq: uint64, p: ProgressState) {
    && limit != 0 && p.lastCheckedStep <= stepSeq && p.repeatedBatches <= limit && p.messageSeq <= MAX_MESSAGES
    && |p.recentEvidence| <= EVIDENCE_WINDOW && |p.recentTrees| <= TREE_WINDOW
    && ValidWindow(p.recentEvidence) && ValidWindow(p.recentTrees)
  }

  predicate ValidProgressState(s: State) {
    && s.limits.maxNoProgressBatches <= MAX_NO_PROGRESS
    && (s.schemaVersion == 1 ==> s.limits.maxNoProgressBatches == 0 && s.progress.None?)
    && (s.progress.Some? ==> ValidProgress(s.limits.maxNoProgressBatches, s.stepSeq, s.progress.value))
  }

  /** First observations only; an overflowing window drops its oldest entries. */
  function Remember(list: seq<string>, value: string, capacity: nat): (r: seq<string>)
    requires ValidWindow(list) && |list| <= capacity && capacity > 0 && ValidHash(value)
    ensures ValidWindow(r) && |r| <= capacity
  {
    if value in list then list
    else
      var grown := list + [value];
      if |grown| > capacity then grown[|grown| - capacity..] else grown
  }

  // ----- the log of first observations ------------------------------------------------

  /** The newest `n` entries. */
  ghost function Newest(log: seq<string>, n: nat): seq<string> {
    if |log| <= n then log else log[|log| - n..]
  }

  /** An unbounded log: a value is a first observation unless it is among the newest
      `capacity` entries. */
  ghost function Logged(log: seq<string>, value: string, capacity: nat): seq<string> {
    if value in Newest(log, capacity) then log else log + [value]
  }

  /** A value returns to the log only after `capacity` other first observations. */
  ghost predicate Spaced(log: seq<string>, capacity: nat) {
    forall i, j :: 0 <= i < j < |log| && j - i <= capacity ==> log[i] != log[j]
  }

  lemma LoggedSpaced(log: seq<string>, value: string, capacity: nat)
    requires Spaced(log, capacity)
    ensures Spaced(Logged(log, value, capacity), capacity) && value in Logged(log, value, capacity) && log <= Logged(log, value, capacity)
  {
    var n := |log|;
    if value !in Newest(log, capacity) {
      forall i | 0 <= i < n && n - i <= capacity ensures log[i] != value {
        var k := if n <= capacity then i else i - (n - capacity);
        assert Newest(log, capacity)[k] == log[i];
      }
      assert (log + [value])[n] == value;
    } else {
      var k :| 0 <= k < |Newest(log, capacity)| && Newest(log, capacity)[k] == value;
      assert log[n - |Newest(log, capacity)| + k] == value;
    }
  }

  /** The bounded window forgets nothing the log still shows as new. */
  lemma RememberSuffix(log: seq<string>, value: string, capacity: nat)
    requires ValidWindow(Newest(log, capacity)) && capacity > 0 && ValidHash(value)
    ensures Remember(Newest(log, capacity), value, capacity) == Newest(Logged(log, value, capacity), capacity)
  {
    hide ValidHash;
    var window := Newest(log, capacity);
    if value !in window {
      assert |log| > capacity ==> (window + [value])[1..] == (log + [value])[|log| + 1 - capacity..];
    }
  }

  predicate ValidObservation(o: Observation) {
    && ValidId(o.effectId) && o.receiptRef != "" && ValidHash(o.beforeHash) && ValidHash(o.afterHash)
    && (!o.indeterminate ==> ValidHash(o.fingerprint))
    && (o.indeterminate ==> o.fingerprint == "")
  }

  predicate ValidObservations(os: seq<Observation>) {
    && (forall i :: 0 <= i < |os| ==> ValidObservation(os[i]))
    && (forall i, j :: 0 <= i < j < |os| ==> os[i].effectId != os[j].effectId)
  }

  /** The two windows and the two flags the observation loop maintains. */
  datatype Digest = Digest(trees: seq<string>, evidence: seq<string>, novel: bool, uncertain: bool) {
    ghost predicate Valid() {
      && ValidWindow(trees) && |trees| <= TREE_WINDOW
      && ValidWindow(evidence) && |evidence| <= EVIDENCE_WINDOW
    }
  }

  /** One observation.  The very first before-tree is a baseline, not novelty. */
  function Observe(d: Digest, o: Observation): (r: Digest)
    requires d.Valid() && ValidObservation(o)
    ensures r.Valid()
  {
    var based := if |d.trees| == 0 then Remember(d.trees, o.beforeHash, TREE_WINDOW) else d.trees;
    var trees := Remember(based, o.afterHash, TREE_WINDOW);
    var evidence := if o.indeterminate then d.evidence else Remember(d.evidence, o.fingerprint, EVIDENCE_WINDOW);
    Digest(trees, evidence,
           d.novel || o.afterHash !in based || (!o.indeterminate && o.fingerprint !in d.evidence),
           d.uncertain || o.indeterminate)
  }

  function ObserveAll(d: Digest, os: seq<Observation>): (r: Digest)
    requires d.Valid() && forall i :: 0 <= i < |os| ==> ValidObservation(os[i])
    ensures r.Valid()
  {
    if os == [] then d else Observe(ObserveAll(d, os[..|os| - 1]), os[|os| - 1])
  }

  /** The same observations against the unbounded logs. */
  datatype Logs = Logs(trees: seq<string>, evidence: seq<string>)

  ghost function LogOne(l: Logs, o: Observation): Logs {
    var based := if |l.trees| == 0 then Logged(l.trees, o.beforeHash, TREE_WINDOW) else l.trees;
    Logs(Logged(based, o.afterHash, TREE_WINDOW),
         if o.indeterminate then l.evidence else Logged(l.evidence, o.fingerprint, EVIDENCE_WINDOW))
  }

  ghost function LogAll(l: Logs, os: seq<Observation>): Logs {
    if os == [] then l else LogOne(LogAll(l, os[..|os| - 1]), os[|os| - 1])
  }

  ghost predicate SuffixOf(trees: seq<string>, evidence: seq<string>, l: Logs) {
    trees == Newest(l.trees, TREE_WINDOW) && evidence == Newest(l.evidence, EVIDENCE_WINDOW)
  }

  lemma ObserveSuffix(d: Digest, l: Logs, o: Observation)
    requires d.Valid() && ValidObservation(o) && SuffixOf(d.trees, d.evidence, l)
    ensures SuffixOf(Observe(d, o).trees, Observe(d, o).evidence, LogOne(l, o))
  {
    hide Remember, Logged, ValidWindow, ValidHash, ValidId;
    var based := if |d.trees| == 0 then Remember(d.trees, o.beforeHash, TREE_WINDOW) else d.trees;
    var log := if |l.trees| == 0 then Logged(l.trees, o.beforeHash, TREE_WINDOW) else l.trees;
    if |d.trees| == 0 {
      RememberSuffix(l.trees, o.beforeHash, TREE_WINDOW);
    }
    assert based == Newest(log, TREE_WINDOW);
    RememberSuffix(log, o.afterHash, TREE_WINDOW);
    if !o.indeterminate {
      RememberSuffix(l.evidence, o.fingerprint, EVIDENCE_WINDOW);
    }
  }

  /** A whole batch leaves both windows the newest stretch of their logs. */
  lemma {:induction false} ObserveAllSuffix(d: Digest, l: Logs, os: seq<Observation>)
    requires d.Valid() && (forall i :: 0 <= i < |os| ==> ValidObservation(os[i])) && SuffixOf(d.trees, d.evidence, l)
    ensures SuffixOf(ObserveAll(d, os).trees, ObserveAll(d, os).evidence, LogAll(l, os))
  {
    hide Observe, LogOne, SuffixOf, ValidObservation;
    if os != [] {
      var init, o := os[..|os| - 1], os[|os| - 1];
      ObserveAllSuffix(d, l, init);
      ObserveSuffix(ObserveAll(d, init), LogAll(l, init), o);
    }
  }

  ghost predicate LogsSpaced(l: Logs) { Spaced(l.trees, TREE_WINDOW) && Spaced(l.evidence, EVIDENCE_WINDOW) }

  ghost predicate InLogs(o: Observation, l: Logs) {
    o.afterHash in l.trees && (!o.indeterminate ==> o.fingerprint in l.evidence)
  }

  ghost predicate LogsExtend(l: Logs, m: Logs) { l.trees <= m.trees && l.evidence <= m.evidence }

  lemma {:induction false} LogAllFacts(l: Logs, os: seq<Observation>)
    requires LogsSpaced(l)
    ensures var m := LogAll(l, os);
      LogsSpaced(m) && LogsExtend(l, m) && forall i :: 0 <= i < |os| ==> InLogs(os[i], m)
  {
    hide Spaced, Logged;
    if os != [] {
      var init, o := os[..|os| - 1], os[|os| - 1];
      LogAllFacts(l, init);
      var k := LogAll(l, init);
      if |k.trees| == 0 {
        LoggedSpaced(k.trees, o.beforeHash, TREE_WINDOW);
        LoggedSpaced(Logged(k.trees, o.beforeHash, TREE_WINDOW), o.afterHash, TREE_WINDOW);
      } else {
        LoggedSpaced(k.trees, o.afterHash, TREE_WINDOW);
      }
      LoggedSpaced(k.evidence, o.fingerprint, EVIDENCE_WINDOW);
      forall i | 0 <= i < |os| ensures InLogs(os[i], LogAll(l, os)) {
        if i < |init| {
          assert InLogs(init[i], k);
        }
      }
    }
  }

  /** The body of the observation loop, statement by statement. */
  method ObserveOne(trees: seq<string>, evidence: seq<string>, novel: bool, uncertain: bool, o: Observation)
    returns (trees': seq<string>, evidence': seq<string>, novel': bool, uncertain': bool)
    requires Digest(trees, evidence, novel, uncertain).Valid() && ValidObservation(o)
    ensures Digest(trees', evidence', novel', uncertain') == Observe(Digest(trees, evidence, novel, uncertain), o)
  {
    trees', evidence', novel', uncertain' := trees, evidence, novel, uncertain;
    if |trees'| == 0 {
      trees' := Remember(trees', o.beforeHash, TREE_WINDOW);
    }
    if o.afterHash !in trees' {
      novel' := true;
    }
    trees' := Remember(trees', o.afterHash, TREE_WINDOW);
    if o.indeterminate {
      uncertain' := true;
    } else {
      if o.fingerprint !in evidence' {
        novel' := true;
      }
      evidence' := Remember(evidence', o.fingerprint, EVIDENCE_WINDOW);
    }
  }

  /** The loop of `observeProgress`, stopping at the first untrusted observation. */
  method ObserveLoop(trees: seq<string>, evidence: seq<string>, os: seq<Observation>)
    returns (r: Result<Digest>)
    requires Digest(trees, evidence, false, false).Valid()
    ensures r.Success? <==> ValidObservations(os)
    ensures r.Success? ==> r.value == ObserveAll(Digest(trees, evidence, false, false), os)
    ensures r.Failure? ==> r.error == ErrUntrusted
  {
    var recentTrees, recentEvidence, novel, uncertain := trees, evidence, false, false;
    var seen: set<string> := {};
    for i := 0 to |os|
      invariant ValidObservations(os[..i])
      invariant seen == set k | 0 <= k < i :: os[k].effectId
      invariant Digest(recentTrees, recentEvidence, novel, uncertain)
                == ObserveAll(Digest(trees, evidence, false, false), os[..i])
      invariant Digest(recentTrees, recentEvidence, novel, uncertain).Valid()
    {
      var o := os[i];
      if !ValidObservation(o) || o.effectId in seen {
        assert o == os[i];
        return Failure(ErrUntrusted);
      }
      seen := seen + {o.effectId};
      recentTrees, recentEvidence, novel, uncertain :=
        ObserveOne(recentTrees, recentEvidence, novel, uncertain, o);
      assert os[..i + 1][..i] == os[..i];
    }
    assert os[..|os|] == os;
    return Success(Digest(recentTrees, recentEvidence, novel, uncertain));
  }

  /** `observeProgress`: the state with its progress record advanced. */
  function ObserveProgress(s: State, e: Event): (r: Result<State>)
    requires ValidProgressState(s)
    ensures r.Success? ==> r.value == s.(progress := r.value.progress)
  {
    if s.limits.maxNoProgressBatches == 0 then Success(s)
    else
      var f := if e.progress.None? && s.stepSeq == 0
               then Some(ProgressFrame("", POLICY_VERSION, 0, 0, "", "", [])) else e.progress;
      if f.None? || (f.value.contextRef != "" && f.value.contextRef != e.outputRef)
         || f.value.policyVersion != POLICY_VERSION || f.value.stepSeq != s.stepSeq
         || f.value.messageSeq > MAX_MESSAGES || |f.value.observations| > MAX_OBSERVATIONS
         || s.pendingEffect.Some? || |s.remainingEffects| != 0 then Failure(ErrInvalid)
      else if s.progress.Some? && (f.value.messageSeq < s.progress.value.messageSeq
                                   || f.value.stepSeq <= s.progress.value.lastCheckedStep) then Failure(ErrConflict)
      else if f.value.stepSeq == 0 then
        if f.value.attemptId != "" || |f.value.observations| != 0 || f.value.verificationRef != "" then Failure(ErrInvalid)
        else Success(s.(progress := Some(ProgressState(0, f.value.messageSeq, 0, Initial, [], []))))
      else if f.value.attemptId == "" || |f.value.observations| == 0 || e.progressRef == "" then Failure(ErrUntrusted)
      else if s.progress.None? then Failure(ErrInvalid)
      else if !ValidObservations(f.value.observations) then Failure(ErrUntrusted)
      else Success(s.(progress := Some(Assess(s.progress.value, f.value))))
  }

  /** Classify one closed batch of tool results against the windows. */
  function Assess(p: ProgressState, f: ProgressFrame): ProgressState
    requires Digest(p.recentTrees, p.recentEvidence, false, false).Valid()
    requires ValidObservations(f.observations) && p.repeatedBatches <= MAX_NO_PROGRESS
  {
    var d := ObserveAll(Digest(p.recentTrees, p.recentEvidence, false, false), f.observations);
    var next := p.(lastCheckedStep := f.stepSeq, messageSeq := f.messageSeq,
                   recentTrees := d.trees, recentEvidence := d.evidence);
    if f.messageSeq > p.messageSeq then next.(repeatedBatches := 0, classification := Message)
    else if d.novel then next.(repeatedBatches := 0, classification := NewEvidence)
    else if d.uncertain then next.(repeatedBatches := 0, classification := Indeterminate)
    else next.(repeatedBatches := p.repeatedBatches + 1, classification := Repeated)
  }

  /** The progress record stays valid as long as the run has not reached its limit. */
  lemma ObserveProgressValid(s: State, e: Event)
    requires ValidProgressState(s)
    requires s.progress.Some? ==> s.progress.value.repeatedBatches < s.limits.maxNoProgressBatches
    requires ObserveProgress(s, e).Success?
    ensures ValidProgressState(ObserveProgress(s, e).value)
  {}

  // ----- the windows saturate --------------------------------------------------

  /** An observation drawn from finite stocks of tree hashes and fingerprints,
      with a determinate result. */
  ghost predicate DrawnFrom(o: Observation, trees: set<string>, prints: set<string>) {
    !o.indeterminate && o.beforeHash in trees && o.afterHash in trees && o.fingerprint in prints
  }

  ghost predicate WithinStock(d: Digest, trees: set<string>, prints: set<string>) {
    (forall h :: h in d.trees ==> h in trees) && (forall h :: h in d.evidence ==> h in prints)
  }

  lemma {:induction false} DistinctFits(list: seq<string>, stock: set<string>)
    requires ValidWindow(list) && forall h :: h in list ==> h in stock
    ensures |list| <= |stock|
    ensures |list| == |stock| ==> forall h :: h in stock ==> h in list
  {
    if list != [] {
      var last, init := list[|list| - 1], list[..|list| - 1];
      assert last !in init;
      assert forall h :: h in init ==> h in list;
      DistinctFits(init, stock - {last});
      assert |stock - {last}| == |stock| - 1;
      assert list == init + [last];
    }
  }

  /** With stocks no larger than the windows nothing is ever evicted: a fresh digest
      grows exactly when the batch brought novelty or set the first baseline. */
  lemma {:induction false} NoEviction(d: Digest, os: seq<Observation>, trees: set<string>, prints: set<string>)
    requires d.Valid() && ValidObservations(os) && WithinStock(d, trees, prints)
    requires |trees| <= TREE_WINDOW && |prints| <= EVIDENCE_WINDOW
    requires forall i :: 0 <= i < |os| ==> DrawnFrom(os[i], trees, prints)
    ensures var r := ObserveAll(d, os);
            && WithinStock(r, trees, prints) && r.uncertain == d.uncertain && (d.novel ==> r.novel)
            && |r.trees| >= |d.trees| && (os != [] ==> |r.trees| > 0)
            && |r.trees| + |r.evidence| >= |d.trees| + |d.evidence|
            && (!d.novel ==>
                  (|r.trees| + |r.evidence| > |d.trees| + |d.evidence| <==> r.novel || (|d.trees| == 0 && os != [])))
  {
    if os != [] {
      var init, o := os[..|os| - 1], os[|os| - 1];
      NoEviction(d, init, trees, prints);
      ObserveWithinStock(ObserveAll(d, init), o, trees, prints);
    }
  }

  /** A window within a stock that fits the capacity never evicts. */
  lemma RememberWithinStock(list: seq<string>, value: string, capacity: nat, stock: set<string>)
    requires ValidWindow(list) && |list| <= capacity && capacity > 0 && ValidHash(value)
    requires (forall h :: h in list ==> h in stock) && value in stock && |stock| <= capacity
    ensures var r := Remember(list, value, capacity);
            && (forall h :: h in r ==> h in stock)
            && |r| == |list| + (if value in list then 0 else 1)
  {
    DistinctFits(list, stock);
    if value !in list && |list| == |stock| {
      assert false;
    }
  }

  lemma ObserveWithinStock(m: Digest, o: Observation, trees: set<string>, prints: set<string>)
    requires m.Valid() && ValidObservation(o) && WithinStock(m, trees, prints) && DrawnFrom(o, trees, prints)
    requires |trees| <= TREE_WINDOW && |prints| <= EVIDENCE_WINDOW
    ensures var r := Observe(m, o);
            && WithinStock(r, trees, prints) && r.uncertain == m.uncertain
            && (m.novel ==> r.novel) && |r.trees| >= |m.trees| && |r.trees| > 0 && |r.evidence| >= |m.evidence|
            && (!m.novel ==> (|r.trees| + |r.evidence| > |m.trees| + |m.evidence| <==> r.novel || |m.trees| == 0))
  {
    if |m.trees| == 0 {
      RememberWithinStock(m.trees, o.beforeHash, TREE_WINDOW, trees);
      RememberWithinStock(Remember(m.trees, o.beforeHash, TREE_WINDOW), o.afterHash, TREE_WINDOW, trees);
    } else {
      RememberWithinStock(m.trees, o.afterHash, TREE_WINDOW, trees);
    }
    RememberWithinStock(m.evidence, o.fingerprint, EVIDENCE_WINDOW, prints);
  }
}
