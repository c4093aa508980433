/** Multi-file patches over a workspace tree (internal/runner/files.go).  A file's
    SHA-256 is treated as injective: a tree stands for its own hash, and an edit
    names the content it expects to find. */
module Patch {
  import opened Domain

  /** Path components; the source's slash-separated names. */
  type Path = seq<string>

  datatype File = File(content: string, executable: bool)

  type Tree = map<Path, File>

  /** `content` is absent exactly when the edit deletes; `expected` is the content
      the edit was written against, or none for "absent". */
  datatype Edit = Edit(path: Path, expected: Option<string>, content: Option<string>, delete: bool,
                       executable: Option<bool>)

  datatype Limits = Limits(maxFileBytes: nat, fits: Tree -> bool)

  predicate HasPrefix(s: string, p: string) { |p| <= |s| && s[..|p|] == p }

  predicate SafeComponent(c: string) {
    c !in {"", ".", "..", ".git"} && !HasPrefix(c, ".forge-") && '\\' !in c && '\0' !in c && '/' !in c
  }

  predicate SafePath(p: Path) {
    p != [] && forall i :: 0 <= i < |p| ==> SafeComponent(p[i])
  }

  /** Directories that `readTree` skips, and the names it ignores. */
  predicate Visible(p: Path) {
    && p != []
    && (forall i :: 0 <= i < |p| - 1 ==> p[i] !in {".git", ".venv", "__pycache__", ".pytest_cache"})
    && !HasPrefix(p[|p| - 1], ".forge-")
  }

  /** What `readTree` reports of a workspace directory. */
  function Seen(fs: Tree): Tree {
    map p | p in fs && Visible(p) :: fs[p]
  }

  // ----- planning ----------------------------------------------------------------------

  function Executable(edit: Edit, before: Tree): bool {
    if edit.executable.Some? then edit.executable.value
    else edit.path in before && before[edit.path].executable
  }

  /** One edit of the tree being built; the executable bit comes from `before`. */
  function Apply(tree: Tree, edit: Edit, before: Tree): Tree {
    if edit.delete || edit.content.None? then tree - {edit.path}
    else tree[edit.path := File(edit.content.value, Executable(edit, before))]
  }

  function ApplyAll(edits: seq<Edit>, before: Tree): Tree {
    if edits == [] then before else Apply(ApplyAll(edits[..|edits| - 1], before), edits[|edits| - 1], before)
  }

  function EditError(edit: Edit, seen: set<Path>, before: Tree, limits: Limits): Option<Error> {
    if !SafePath(edit.path) || edit.path in seen || edit.delete == edit.content.Some? then Some(ErrInvalid)
    else if edit.expected != (if edit.path in before then Some(before[edit.path].content) else None) then Some(ErrConflict)
    else if edit.delete then if edit.path !in before then Some(ErrConflict) else None
    else if |edit.content.value| > limits.maxFileBytes then Some(ErrCapacity)
    else None
  }

  ghost function Paths(edits: seq<Edit>): set<Path> { set i | 0 <= i < |edits| :: edits[i].path }

  /** An acceptable patch: every edit is valid against `before` and no path repeats. */
  ghost predicate ValidPatch(edits: seq<Edit>, before: Tree, limits: Limits) {
    && 1 <= |edits| <= 64 && limits.fits(ApplyAll(edits, before))
    && forall i :: 0 <= i < |edits| ==> EditError(edits[i], Paths(edits[..i]), before, limits).None?
  }

  // ----- what a plan must be, said of the edits and the tree alone ----------------------------

  /** `plan` is `before` with exactly the edited paths changed: deleted ones are gone,
      the others hold the edit's content under the bit it names or the old one. */
  ghost predicate IsPlan(edits: seq<Edit>, before: Tree, plan: Tree) {
    && (forall p :: p !in Paths(edits) ==> (p in plan <==> p in before) && (p in before ==> plan[p] == before[p]))
    && forall k :: 0 <= k < |edits| ==> IsPlannedAt(edits[k], before, plan)
  }

  ghost predicate IsPlannedAt(e: Edit, before: Tree, plan: Tree) {
    if e.delete then e.path !in plan
    else
      && e.content.Some? && e.path in plan && plan[e.path].content == e.content.value
      && plan[e.path].executable == match e.executable
           case Some(bit) => bit
           case None => e.path in before && before[e.path].executable
  }

  /** A safe path not named before, and either a deletion or new content. */
  ghost predicate WellFormed(edits: seq<Edit>, k: nat)
    requires k < |edits|
  {
    SafePath(edits[k].path) && edits[k].delete == edits[k].content.None? && forall j :: 0 <= j < k ==> edits[j].path != edits[k].path
  }

  /** The edit was written against what is there. */
  ghost predicate UpToDate(e: Edit, before: Tree) {
    match e.expected
    case Some(content) => e.path in before && before[e.path].content == content
    case None => e.path !in before && !e.delete
  }

  ghost predicate SmallEnough(e: Edit, limits: Limits) { e.content.Some? && !e.delete ==> |e.content.value| <= limits.maxFileBytes }

  ghost predicate GoodEdit(edits: seq<Edit>, k: nat, before: Tree, limits: Limits)
    requires k < |edits|
  {
    WellFormed(edits, k) && UpToDate(edits[k], before) && SmallEnough(edits[k], limits)
  }

  /** The error of the first bad edit, or of a plan too large for the workspace. */
  ghost predicate PlanFault(edits: seq<Edit>, before: Tree, limits: Limits, error: Error) {
    if |edits| == 0 || |edits| > 64 then error == ErrInvalid
    else if exists k: nat :: k < |edits| && !GoodEdit(edits, k, before, limits) then
      exists k: nat :: k < |edits| && FirstBad(edits, k, before, limits, error)
    else error == ErrCapacity
  }

  ghost predicate FirstBad(edits: seq<Edit>, k: nat, before: Tree, limits: Limits, error: Error)
    requires k < |edits|
  {
    && (forall j: nat :: j < k ==> GoodEdit(edits, j, before, limits))
    && if !WellFormed(edits, k) then error == ErrInvalid
       else if !UpToDate(edits[k], before) then error == ErrConflict
       else error == ErrCapacity && !SmallEnough(edits[k], limits)
  }

  ghost predicate Acceptable(edits: seq<Edit>, before: Tree, limits: Limits, plan: Tree) {
    && 1 <= |edits| <= 64 && (forall k: nat :: k < |edits| ==> GoodEdit(edits, k, before, limits))
    && IsPlan(edits, before, plan) && limits.fits(plan)
  }

  lemma EditErrorMeaning(edits: seq<Edit>, k: nat, before: Tree, limits: Limits)
    requires k < |edits|
    ensures var e := EditError(edits[k], Paths(edits[..k]), before, limits);
      && (e.None? <==> GoodEdit(edits, k, before, limits))
      && (e.Some? ==> e.value == if !WellFormed(edits, k) then ErrInvalid else if !UpToDate(edits[k], before) then ErrConflict else ErrCapacity)
  {
    hide SafePath;
    var seen := Paths(edits[..k]);
    assert edits[k].path in seen <==> exists j :: 0 <= j < k && edits[j].path == edits[k].path by {
      assert forall j :: 0 <= j < k ==> edits[..k][j] == edits[j];
      if edits[k].path in seen {
        var j :| 0 <= j < |edits[..k]| && edits[..k][j].path == edits[k].path;
        assert edits[j].path == edits[k].path;
      }
    }
  }

  /** The independent reading of a valid patch and its plan. */
  lemma ValidPatchMeaning(edits: seq<Edit>, before: Tree, limits: Limits)
    ensures ValidPatch(edits, before, limits) <==> Acceptable(edits, before, limits, ApplyAll(edits, before))
    ensures ValidPatch(edits, before, limits) ==> IsPlan(edits, before, ApplyAll(edits, before))
  {
    hide EditError, GoodEdit, ApplyAll, IsPlan;
    forall k | 0 <= k < |edits|
      ensures EditError(edits[k], Paths(edits[..k]), before, limits).None? <==> GoodEdit(edits, k, before, limits)
    {
      EditErrorMeaning(edits, k, before, limits);
    }
    if forall k: nat :: k < |edits| ==> GoodEdit(edits, k, before, limits) {
      GoodShape(edits, before, limits);
      ApplyAllIsPlan(edits, before);
    }
  }

  lemma GoodShape(edits: seq<Edit>, before: Tree, limits: Limits)
    requires forall k: nat :: k < |edits| ==> GoodEdit(edits, k, before, limits)
    ensures forall i, j :: 0 <= i < j < |edits| ==> edits[i].path != edits[j].path
    ensures forall k :: 0 <= k < |edits| ==> edits[k].delete == edits[k].content.None?
  {
    hide SafePath, UpToDate, SmallEnough;
    forall i, j | 0 <= i < j < |edits| ensures edits[i].path != edits[j].path {
      assert GoodEdit(edits, j, before, limits);
    }
    forall k | 0 <= k < |edits| ensures edits[k].delete == edits[k].content.None? {
      assert GoodEdit(edits, k, before, limits);
    }
  }

  lemma {:induction false} ApplyAllIsPlan(edits: seq<Edit>, before: Tree)
    requires forall i, j :: 0 <= i < j < |edits| ==> edits[i].path != edits[j].path
    requires forall k :: 0 <= k < |edits| ==> edits[k].delete == edits[k].content.None?
    ensures IsPlan(edits, before, ApplyAll(edits, before))
  {
    if edits != [] {
      var n := |edits| - 1;
      var init, last, plan := edits[..n], edits[n], ApplyAll(edits, before);
      assert forall k :: 0 <= k < n ==> init[k] == edits[k];
      ApplyAllIsPlan(init, before);
      PathsStep(edits, n);
      assert edits[..n + 1] == edits;
      forall k | 0 <= k < |edits| ensures IsPlannedAt(edits[k], before, plan) {
        if k < n {
          assert IsPlannedAt(init[k], before, ApplyAll(init, before));
          assert edits[k].path != last.path;
        }
      }
    }
  }

  /** A plan is determined by the edits and the tree. */
  lemma PlanUnique(edits: seq<Edit>, before: Tree, a: Tree, b: Tree)
    requires IsPlan(edits, before, a) && IsPlan(edits, before, b)
    ensures a == b
  {
    forall p ensures (p in a <==> p in b) && (p in a && p in b ==> a[p] == b[p]) {
      if p in Paths(edits) {
        var k :| 0 <= k < |edits| && edits[k].path == p;
        assert IsPlannedAt(edits[k], before, a) && IsPlannedAt(edits[k], before, b);
      }
    }
  }

  /** `patchPlan`: the tree a patch promises, or the first error. */
  method PatchPlan(edits: seq<Edit>, before: Tree, limits: Limits) returns (r: Result<Tree>)
    ensures r.Success? <==> ValidPatch(edits, before, limits)
    ensures r.Success? ==> r.value == ApplyAll(edits, before)
    ensures r.Success? ==> Acceptable(edits, before, limits, r.value)
    ensures r.Failure? ==> PlanFault(edits, before, limits, r.error) && forall plan :: !Acceptable(edits, before, limits, plan)
  {
    hide SafePath, Acceptable, PlanFault;
    if |edits| == 0 || |edits| > 64 {
      Refused(edits, before, limits);
      return Failure(ErrInvalid);
    }
    var after := before;
    var seen: set<Path> := {};
    for i := 0 to |edits|
      invariant after == ApplyAll(edits[..i], before)
      invariant seen == Paths(edits[..i])
      invariant forall k :: 0 <= k < i ==> EditError(edits[k], Paths(edits[..k]), before, limits).None?
    {
      var edit := edits[i];
      var invalid := EditError(edit, seen, before, limits);
      if invalid.Some? {
        FaultAt(edits, i, before, limits);
        Refused(edits, before, limits);
        return Failure(invalid.value);
      }
      seen := seen + {edit.path};
      if edit.delete {
        after := after - {edit.path};
      } else {
        after := after[edit.path := File(edit.content.value, Executable(edit, before))];
      }
      assert edits[..i + 1][..i] == edits[..i];
      PathsStep(edits, i);
    }
    assert edits[..|edits|] == edits;
    if !limits.fits(after) {
      TooLarge(edits, before, limits);
      Refused(edits, before, limits);
      return Failure(ErrCapacity);
    }
    ValidPatchMeaning(edits, before, limits);
    return Success(after);
  }

  /** What an invalid patch is refused for. */
  lemma Refused(edits: seq<Edit>, before: Tree, limits: Limits)
    requires !ValidPatch(edits, before, limits)
    ensures forall plan :: !Acceptable(edits, before, limits, plan)
    ensures |edits| == 0 || |edits| > 64 ==> PlanFault(edits, before, limits, ErrInvalid)
  {
    hide ValidPatch, IsPlan, GoodEdit, ApplyAll;
    ValidPatchMeaning(edits, before, limits);
    forall plan | IsPlan(edits, before, plan) && forall k: nat :: k < |edits| ==> GoodEdit(edits, k, before, limits)
      ensures plan == ApplyAll(edits, before)
    {
      GoodShape(edits, before, limits);
      ApplyAllIsPlan(edits, before);
      PlanUnique(edits, before, plan, ApplyAll(edits, before));
    }
  }

  lemma FaultAt(edits: seq<Edit>, k: nat, before: Tree, limits: Limits)
    requires 1 <= |edits| <= 64 && k < |edits| && EditError(edits[k], Paths(edits[..k]), before, limits).Some?
    requires forall j :: 0 <= j < k ==> EditError(edits[j], Paths(edits[..j]), before, limits).None?
    ensures PlanFault(edits, before, limits, EditError(edits[k], Paths(edits[..k]), before, limits).value)
  {
    hide EditError, WellFormed, UpToDate, SmallEnough;
    forall j | 0 <= j <= k
      ensures EditError(edits[j], Paths(edits[..j]), before, limits).None? <==> GoodEdit(edits, j, before, limits)
    {
      EditErrorMeaning(edits, j, before, limits);
    }
    EditErrorMeaning(edits, k, before, limits);
    assert FirstBad(edits, k, before, limits, EditError(edits[k], Paths(edits[..k]), before, limits).value);
  }

  lemma TooLarge(edits: seq<Edit>, before: Tree, limits: Limits)
    requires 1 <= |edits| <= 64 && forall k :: 0 <= k < |edits| ==> EditError(edits[k], Paths(edits[..k]), before, limits).None?
    ensures PlanFault(edits, before, limits, ErrCapacity)
  {
    hide EditError, GoodEdit;
    forall k | 0 <= k < |edits| ensures GoodEdit(edits, k, before, limits) {
      EditErrorMeaning(edits, k, before, limits);
    }
  }

  lemma PathsStep(edits: seq<Edit>, i: nat)
    requires i < |edits|
    ensures Paths(edits[..i + 1]) == Paths(edits[..i]) + {edits[i].path}
  {
    var a, b := edits[..i + 1], edits[..i];
    forall p | p in Paths(b) + {edits[i].path} ensures p in Paths(a) {
      if p == edits[i].path {
        assert a[i].path == p;
      } else {
        var k :| 0 <= k < |b| && b[k].path == p;
        assert a[k].path == p;
      }
    }
    forall p | p in Paths(a) ensures p in Paths(b) + {edits[i].path} {
      var k :| 0 <= k < |a| && a[k].path == p;
      if k < i {
        assert b[k].path == p;
      }
    }
  }

  // ----- what the directory shows while the edits are applied one by one ------------------

  function VisibleEdits(edits: seq<Edit>): seq<Edit> {
    if edits == [] then []
    else VisibleEdits(edits[..|edits| - 1]) + (if Visible(edits[|edits| - 1].path) then [edits[|edits| - 1]] else [])
  }

  predicate AllVisible(edits: seq<Edit>) {
    forall i :: 0 <= i < |edits| ==> Visible(edits[i].path)
  }

  lemma {:induction false} AllVisibleEdits(edits: seq<Edit>)
    requires AllVisible(edits)
    ensures VisibleEdits(edits) == edits
  {
    hide Visible;
    if edits != [] {
      var init, last := edits[..|edits| - 1], edits[|edits| - 1];
      assert forall i :: 0 <= i < |init| ==> init[i] == edits[i];
      assert edits == init + [last];
      AllVisibleEdits(edits[..|edits| - 1]);
    }
  }

  /** One more edit on disk shows one more visible edit, and nothing else. */
  lemma SeenStep(fs: Tree, edits: seq<Edit>, i: nat, before: Tree)
    requires i < |edits| && Seen(fs) == ApplyAll(VisibleEdits(edits[..i]), before)
    ensures Seen(Apply(fs, edits[i], before)) == ApplyAll(VisibleEdits(edits[..i + 1]), before)
  {
    hide Visible;
    var earlier, edit, next := VisibleEdits(edits[..i]), edits[i], Apply(fs, edits[i], before);
    assert edits[..i + 1][..i] == edits[..i];
    if Visible(edit.path) {
      assert (earlier + [edit])[..|earlier|] == earlier;
      assert Seen(next) == Apply(Seen(fs), edit, before);
    } else {
      assert earlier + [] == earlier;
      assert Seen(next) == Seen(fs);
    }
  }

  /** A path outside the edits keeps its value; an edited path gets its edit's. */
  lemma {:induction false} ApplyAllAt(edits: seq<Edit>, before: Tree, p: Path)
    requires forall i, j :: 0 <= i < j < |edits| ==> edits[i].path != edits[j].path
    ensures p !in Paths(edits) ==>
              (p in ApplyAll(edits, before) <==> p in before) && (p in before ==> ApplyAll(edits, before)[p] == before[p])
    ensures forall i :: 0 <= i < |edits| && edits[i].path == p && !edits[i].delete && edits[i].content.Some? ==> p in ApplyAll(edits, before)
  {
    if edits != [] {
      var init, last := edits[..|edits| - 1], edits[|edits| - 1];
      ApplyAllAt(init, before, p);
      assert forall i :: 0 <= i < |init| ==> init[i] == edits[i];
      if p !in Paths(edits) {
        assert p != last.path by { assert edits[|edits| - 1].path == last.path; }
        assert forall k :: 0 <= k < |init| ==> init[k].path != p;
      }
    }
  }

  lemma DistinctPaths(edits: seq<Edit>, before: Tree, limits: Limits)
    requires ValidPatch(edits, before, limits)
    ensures forall i, j :: 0 <= i < j < |edits| ==> edits[i].path != edits[j].path
  {
    forall i, j | 0 <= i < j < |edits| ensures edits[i].path != edits[j].path {
      assert EditError(edits[j], Paths(edits[..j]), before, limits).None?;
      assert edits[..j][i].path in Paths(edits[..j]);
    }
  }

  /** A fully applied patch shows exactly the planned tree if and only if every
      edited path is one that `readTree` reports. */
  lemma PlanIsSeenIffVisible(edits: seq<Edit>, fs: Tree, limits: Limits)
    requires ValidPatch(edits, Seen(fs), limits)
    ensures ApplyAll(VisibleEdits(edits), Seen(fs)) == ApplyAll(edits, Seen(fs)) <==> AllVisible(edits)
  {
    hide SafePath;
    var before := Seen(fs);
    if AllVisible(edits) {
      AllVisibleEdits(edits);
    } else {
      var k :| 0 <= k < |edits| && !Visible(edits[k].path);
      DistinctPaths(edits, before, limits);
      assert EditError(edits[k], Paths(edits[..k]), before, limits).None?;
      ApplyAllAt(edits, before, edits[k].path);
      VisibleEditsVisible(edits);
      OnlyVisible(VisibleEdits(edits), before);
    }
  }

  lemma {:induction false} VisibleEditsVisible(edits: seq<Edit>)
    ensures AllVisible(VisibleEdits(edits))
  {
    hide Visible;
    if edits != [] {
      VisibleEditsVisible(edits[..|edits| - 1]);
    }
  }

  lemma {:induction false} OnlyVisible(edits: seq<Edit>, before: Tree)
    requires AllVisible(edits) && forall p :: p in before ==> Visible(p)
    ensures forall p :: p in ApplyAll(edits, before) ==> Visible(p)
  {
    hide Visible;
    if edits != [] {
      OnlyVisible(edits[..|edits| - 1], before);
    }
  }

  /** A hidden edit really escapes the check: a new file under `.venv`. */
  lemma HiddenEditEscapes(limits: Limits)
    requires limits.maxFileBytes >= 1 && limits.fits(map[[".venv", "x"] := File("a", false)])
    ensures var edit := Edit([".venv", "x"], None, Some("a"), false, None);
            && ValidPatch([edit], map[], limits) && !AllVisible([edit])
            && Seen(Apply(map[], edit, map[])) == map[] != ApplyAll([edit], map[])
  {
    var edit := Edit([".venv", "x"], None, Some("a"), false, None);
    assert [edit][..0] == [];
    assert ApplyAll([], map[]) == map[];
    assert ApplyAll([edit], map[]) == map[[".venv", "x"] := File("a", false)];
    assert Paths([]) == {};
    assert SafePath([".venv", "x"]);
    assert !Visible(edit.path) by { assert edit.path[0] == ".venv"; }
    assert [".venv", "x"] in ApplyAll([edit], map[]);
    forall i | 0 <= i < 1 ensures EditError([edit][i], Paths([edit][..i]), map[], limits).None? {
      assert [edit][..i] == [];
    }
    assert [edit][0] == edit;
  }
}
