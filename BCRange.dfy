/**
 * Model of the bunch-crossing range consistency check (`checkBCRange`).
 *
 * The decision tree lists, per bunch crossing, its global id and whether the
 * software trigger selected it; the ranges tree lists inclusive frames
 * `[start, end]`.  Every selected id is looked up in the frames, and the
 * number of ids that no frame contains is reported.  ROOT trees become
 * sequences; a tree that cannot be read becomes `None`.
 */
module BCRange {
  import opened Wrappers

  /** One entry of the `O2cefpdecision` tree. */
  datatype Decision = Decision(globalBCId: nat, cefpSelected: nat)

  /** One entry of the `O2bcranges` tree: an inclusive frame of bunch crossings. */
  datatype Frame = Frame(bcStart: nat, bcEnd: nat)

  /** `IRFrame::isOutside`: the id lies before the start or after the end. */
  predicate IsOutside(f: Frame, bc: nat) {
    bc < f.bcStart || bc > f.bcEnd
  }

  // ---------------------------------------------------------------------------
  // Specification functions
  // ---------------------------------------------------------------------------

  /** The ids of the selected decisions, in tree order (defined from the back, as the loop appends). */
  function SelectedIds(ds: seq<Decision>): seq<nat> {
    if ds == [] then []
    else
      var last := ds[|ds| - 1];
      SelectedIds(ds[..|ds| - 1]) + (if last.cefpSelected == 0 then [] else [last.globalBCId])
  }

  /** Some frame of `fs` does not report `bc` as outside it. */
  predicate Covered(fs: seq<Frame>, bc: nat) {
    |fs| > 0 && (Covered(fs[..|fs| - 1], bc) || !IsOutside(fs[|fs| - 1], bc))
  }

  /** The `found` vector both overloads are meant to compute. */
  function FoundVector(bcids: seq<nat>, fs: seq<Frame>): (r: seq<bool>)
    ensures |r| == |bcids|
  {
    seq(|bcids|, i requires 0 <= i < |bcids| => Covered(fs, bcids[i]))
  }

  /** Number of ids not found: the multiplicity of `false` in the vector. */
  function NotFoundCount(found: seq<bool>): nat {
    multiset(found)[false]
  }

  /** Concatenation of the trees that could be read, skipping the missing ones. */
  function Flatten<T>(dirs: seq<Option<seq<T>>>): seq<T> {
    if dirs == [] then []
    else
      Flatten(dirs[..|dirs| - 1]) + (match dirs[|dirs| - 1] case None => [] case Some(t) => t)
  }

  // ---------------------------------------------------------------------------
  // Lemmas about the specification
  // ---------------------------------------------------------------------------

  /** An id is selected iff some decision with a non-zero `cefpSelected` carries it. */
  lemma {:induction false} SelectedIdsMembers(ds: seq<Decision>, x: nat)
    ensures x in SelectedIds(ds) <==> exists j :: 0 <= j < |ds| && ds[j].cefpSelected != 0 && ds[j].globalBCId == x
  {
    if ds != [] {
      var init := ds[..|ds| - 1];
      SelectedIdsMembers(init, x);
      assert forall j :: 0 <= j < |init| ==> init[j] == ds[j];
    }
  }

  /** Selecting never produces more ids than there are decisions. */
  lemma {:induction false} SelectedIdsLength(ds: seq<Decision>)
    ensures |SelectedIds(ds)| <= |ds|
    ensures (forall j :: 0 <= j < |ds| ==> ds[j].cefpSelected != 0) ==> |SelectedIds(ds)| == |ds|
  {
    if ds != [] {
      var init := ds[..|ds| - 1];
      SelectedIdsLength(init);
      assert forall j :: 0 <= j < |init| ==> init[j] == ds[j];
    }
  }

  /** Selecting distributes over concatenation of decision trees. */
  lemma {:induction false} SelectedIdsAppend(a: seq<Decision>, b: seq<Decision>)
    ensures SelectedIds(a + b) == SelectedIds(a) + SelectedIds(b)
    decreases |b|
  {
    if b == [] {
      assert a + b == a;
    } else {
      var b' := b[..|b| - 1];
      assert (a + b)[..|a + b| - 1] == a + b';
      SelectedIdsAppend(a, b');
    }
  }

  /** The reference reading of `Covered`: some frame contains the id. */
  lemma {:induction false} CoveredIff(fs: seq<Frame>, bc: nat)
    ensures Covered(fs, bc) <==> exists j :: 0 <= j < |fs| && fs[j].bcStart <= bc <= fs[j].bcEnd
  {
    if fs != [] {
      var init := fs[..|fs| - 1];
      CoveredIff(init, bc);
      assert forall j :: 0 <= j < |init| ==> init[j] == fs[j];
    }
  }

  /** A frame that contains the id makes it covered. */
  lemma CoveredWitness(fs: seq<Frame>, k: nat, bc: nat)
    requires k < |fs| && !IsOutside(fs[k], bc)
    ensures Covered(fs, bc)
  {
    CoveredIff(fs, bc);
  }

  /** Adding frames can only turn entries of `found` from false to true. */
  lemma CoveredAppend(fs: seq<Frame>, gs: seq<Frame>, bc: nat)
    ensures Covered(fs + gs, bc) <==> Covered(fs, bc) || Covered(gs, bc)
  {
    CoveredIff(fs + gs, bc);
    CoveredIff(fs, bc);
    CoveredIff(gs, bc);
    if Covered(fs + gs, bc) {
      var j :| 0 <= j < |fs + gs| && (fs + gs)[j].bcStart <= bc <= (fs + gs)[j].bcEnd;
      if j >= |fs| {
        assert gs[j - |fs|] == (fs + gs)[j];
      }
    }
    if Covered(fs, bc) {
      var j :| 0 <= j < |fs| && fs[j].bcStart <= bc <= fs[j].bcEnd;
      assert (fs + gs)[j] == fs[j];
    }
    if Covered(gs, bc) {
      var j :| 0 <= j < |gs| && gs[j].bcStart <= bc <= gs[j].bcEnd;
      assert (fs + gs)[|fs| + j] == gs[j];
    }
  }

  /** The count of missing ids never exceeds the number of ids. */
  lemma NotFoundBounded(found: seq<bool>)
    ensures 0 <= NotFoundCount(found) <= |found|
  {
    assert |multiset(found)| == |found|;
    assert multiset(found)[false] <= |multiset(found)| by {
      var m := multiset(found);
      assert m == m[false := m[false]];
      MultiplicityBounded(m, false);
    }
  }

  lemma MultiplicityBounded<T>(m: multiset<T>, x: T)
    ensures m[x] <= |m|
  {
    if x in m {
      var rest := m[x := 0];
      assert m == rest + multiset{}[x := m[x]];
    }
  }

  /** A vector of `n` falses. */
  lemma {:induction false} AllFalseCount(v: seq<bool>)
    requires forall i :: 0 <= i < |v| ==> !v[i]
    ensures NotFoundCount(v) == |v|
  {
    if v != [] {
      AllFalseCount(v[1..]);
      assert v == [v[0]] + v[1..];
    }
  }

  /** With no frames nothing is found, so every selected id is reported missing. */
  lemma NoFramesNothingFound(bcids: seq<nat>)
    ensures NotFoundCount(FoundVector(bcids, [])) == |bcids|
  {
    AllFalseCount(FoundVector(bcids, []));
  }

  /** The concatenation of the readable trees, split at a directory boundary. */
  lemma {:induction false} FlattenAppend<T>(a: seq<Option<seq<T>>>, b: seq<Option<seq<T>>>)
    ensures Flatten(a + b) == Flatten(a) + Flatten(b)
    decreases |b|
  {
    if b == [] {
      assert a + b == a;
    } else {
      var b' := b[..|b| - 1];
      assert (a + b)[..|a + b| - 1] == a + b';
      FlattenAppend(a, b');
    }
  }

  // ---------------------------------------------------------------------------
  // The loops of the two overloads
  // ---------------------------------------------------------------------------

  /** The decision-tree loop: push the id of every selected entry. */
  method CollectSelected(ds: seq<Decision>) returns (bcids: seq<nat>)
    ensures bcids == SelectedIds(ds)
  {
    bcids := [];
    for i := 0 to |ds|
      invariant bcids == SelectedIds(ds[..i])
    {
      assert ds[..i + 1][..i] == ds[..i];
      if ds[i].cefpSelected == 0 {
        continue;
      }
      bcids := bcids + [ds[i].globalBCId];
    }
    assert ds[..|ds|] == ds;
  }

  /** First overload: frames outer, ids inner, no early exit. */
  method MarkFramesOuter(bcids: seq<nat>, fs: seq<Frame>) returns (found: seq<bool>)
    ensures found == FoundVector(bcids, fs)
  {
    var f := new bool[|bcids|](_ => false);
    for k := 0 to |fs|
      invariant forall i :: 0 <= i < f.Length ==> f[i] == Covered(fs[..k], bcids[i])
    {
      assert fs[..k + 1][..k] == fs[..k];
      for i := 0 to |bcids|
        invariant forall j :: 0 <= j < i ==> f[j] == Covered(fs[..k + 1], bcids[j])
        invariant forall j :: i <= j < f.Length ==> f[j] == Covered(fs[..k], bcids[j])
      {
        if !IsOutside(fs[k], bcids[i]) {
          f[i] := true;
        }
      }
    }
    assert fs[..|fs|] == fs;
    found := f[..];
  }

  /** Second overload: ids outer, frames inner, leaving the inner loop at the first containing frame. */
  method MarkPointsOuter(bcids: seq<nat>, fs: seq<Frame>) returns (found: seq<bool>)
    ensures found == FoundVector(bcids, fs)
  {
    var f := new bool[|bcids|](_ => false);
    for i := 0 to |bcids|
      invariant forall j :: 0 <= j < i ==> f[j] == Covered(fs, bcids[j])
      invariant forall j :: i <= j < f.Length ==> !f[j]
    {
      for k := 0 to |fs|
        invariant !f[i] && !Covered(fs[..k], bcids[i])
        invariant forall j :: 0 <= j < i ==> f[j] == Covered(fs, bcids[j])
        invariant forall j :: i < j < f.Length ==> !f[j]
      {
        assert fs[..k + 1][..k] == fs[..k];
        if !IsOutside(fs[k], bcids[i]) {
          f[i] := true;
          CoveredWitness(fs, k, bcids[i]);
          break;
        }
      }
      assert fs[..|fs|] == fs;
    }
    found := f[..];
  }

  /** The counting loop: `notFound += !found[i]`. */
  method CountNotFound(found: seq<bool>) returns (notFound: nat)
    ensures notFound == NotFoundCount(found)
    ensures notFound <= |found|
  {
    notFound := 0;
    for i := 0 to |found|
      invariant notFound == multiset(found[..i])[false]
    {
      assert found[..i + 1] == found[..i] + [found[i]];
      if !found[i] {
        notFound := notFound + 1;
      }
    }
    assert found[..|found|] == found;
    NotFoundBounded(found);
  }

  /** The two loop orders produce the same `found` vector. */
  method LoopOrdersAgree(bcids: seq<nat>, fs: seq<Frame>) returns (framesOuter: seq<bool>, pointsOuter: seq<bool>)
    ensures framesOuter == pointsOuter
    ensures |framesOuter| == |bcids|
  {
    framesOuter := MarkFramesOuter(bcids, fs);
    pointsOuter := MarkPointsOuter(bcids, fs);
  }

  // ---------------------------------------------------------------------------
  // First overload: one report per directory of the input file
  // ---------------------------------------------------------------------------

  /** A directory of the input file with its two trees, each possibly missing. */
  datatype Directory = Directory(ranges: Option<seq<Frame>>, decisions: Option<seq<Decision>>)

  /** What one directory prints: the error line for missing trees, or the summary line. */
  datatype DirReport = MissingTrees | Summary(notFound: nat, total: nat)

  /** The report of one directory, computed from its own trees alone. */
  function DirectoryReport(d: Directory): DirReport {
    if d.ranges.None? || d.decisions.None? then MissingTrees
    else
      var bcids := SelectedIds(d.decisions.value);
      Summary(NotFoundCount(FoundVector(bcids, d.ranges.value)), |bcids|)
  }

  /** A summary never reports more missing ids than it checked; without frames it reports all of them. */
  lemma DirectoryReportBounds(d: Directory)
    requires DirectoryReport(d).Summary?
    ensures DirectoryReport(d).notFound <= DirectoryReport(d).total
    ensures d.ranges == Some([]) ==> DirectoryReport(d).notFound == DirectoryReport(d).total
  {
    var bcids := SelectedIds(d.decisions.value);
    NotFoundBounded(FoundVector(bcids, d.ranges.value));
    if d.ranges == Some([]) {
      NoFramesNothingFound(bcids);
    }
  }

  /** `checkBCRange(filename)`: `bcids` and `found` are rebuilt for every directory. */
  method CheckBCRange(dirs: seq<Directory>) returns (reports: seq<DirReport>)
    ensures |reports| == |dirs|
    ensures forall k :: 0 <= k < |dirs| ==> reports[k] == DirectoryReport(dirs[k])
  {
    reports := [];
    for k := 0 to |dirs|
      invariant |reports| == k
      invariant forall j :: 0 <= j < k ==> reports[j] == DirectoryReport(dirs[j])
    {
      var d := dirs[k];
      if d.ranges.None? || d.decisions.None? {
        reports := reports + [MissingTrees];
        continue;
      }
      var bcids := CollectSelected(d.decisions.value);
      var found := MarkFramesOuter(bcids, d.ranges.value);
      var notFound := CountNotFound(found);
      reports := reports + [Summary(notFound, |bcids|)];
    }
  }

  // ---------------------------------------------------------------------------
  // Second overload: frames from a separate range file, ids from all directories
  // ---------------------------------------------------------------------------

  /**
   * `checkBCRange(filename, rangeFileName)`: the frames of every readable range
   * tree and the selected ids of every readable decision tree are pooled, then
   * checked once.
   */
  method CheckBCRangeWithRangeFile(rangeDirs: seq<Option<seq<Frame>>>, decisionDirs: seq<Option<seq<Decision>>>)
    returns (notFound: nat, total: nat)
    ensures total == |SelectedIds(Flatten(decisionDirs))|
    ensures notFound == NotFoundCount(FoundVector(SelectedIds(Flatten(decisionDirs)), Flatten(rangeDirs)))
    ensures notFound <= total
  {
    var frames: seq<Frame> := [];
    for i := 0 to |rangeDirs|
      invariant frames == Flatten(rangeDirs[..i])
    {
      assert rangeDirs[..i + 1][..i] == rangeDirs[..i];
      if rangeDirs[i].None? {
        continue;
      }
      var tree := rangeDirs[i].value;
      ghost var before := frames;
      for e := 0 to |tree|
        invariant frames == before + tree[..e]
      {
        assert tree[..e + 1] == tree[..e] + [tree[e]];
        frames := frames + [tree[e]];
      }
      assert tree[..|tree|] == tree;
    }
    assert rangeDirs[..|rangeDirs|] == rangeDirs;

    var bcids: seq<nat> := [];
    for i := 0 to |decisionDirs|
      invariant bcids == SelectedIds(Flatten(decisionDirs[..i]))
    {
      assert decisionDirs[..i + 1][..i] == decisionDirs[..i];
      if decisionDirs[i].None? {
        assert Flatten(decisionDirs[..i + 1]) == Flatten(decisionDirs[..i]) + [];
        assert Flatten(decisionDirs[..i]) + [] == Flatten(decisionDirs[..i]);
        continue;
      }
      assert Flatten(decisionDirs[..i + 1]) == Flatten(decisionDirs[..i]) + decisionDirs[i].value;
      var more := CollectSelected(decisionDirs[i].value);
      SelectedIdsAppend(Flatten(decisionDirs[..i]), decisionDirs[i].value);
      bcids := bcids + more;
      assert bcids == SelectedIds(Flatten(decisionDirs[..i]) + decisionDirs[i].value);
    }
    assert decisionDirs[..|decisionDirs|] == decisionDirs;

    var found := MarkPointsOuter(bcids, frames);
    notFound := CountNotFound(found);
    total := |bcids|;
  }
}
