/** The closed-world workspace algebra: a tree is the map from path to entry that a stable
    observation yields, and a summary is represented by the tree it digests. */
module WorkspaceTree {
  import opened Basics

  datatype Entry = Directory | File(id: Content)
  type Tree = map<Path, Entry>

  datatype Verdict = Matched(tree: Tree) | Drifted(observed: Tree) | Refused

  function AsFiles(outputs: map<Path, Content>): Tree
  {
    map q | q in outputs :: File(outputs[q])
  }

  /** Baseline plus sealed output files; None when an output collides with the baseline. */
  function Project(baseline: Tree, outputs: map<Path, Content>): Option<Tree>
  {
    if outputs.Keys !! baseline.Keys then Some(baseline + AsFiles(outputs)) else None
  }

  /** The output files present among `paths`. */
  function Present(tree: Tree, paths: seq<Path>): map<Path, Content>
  {
    map q | q in paths && q in tree && tree[q].File? :: tree[q].id
  }

  function VerifyWorkspace(observed: Tree, baseline: Tree, completed: map<Path, Content>,
      volatile: seq<Path>): (v: Verdict)
    ensures v.Matched? ==> v.tree == observed
    ensures v.Drifted? ==> v.observed == observed
  {
    if !(completed.Keys !! baseline.Keys) then Refused
    else
      var expected := baseline + AsFiles(completed);
      if exists q :: q in volatile && q in expected then Refused
      else if !(expected.Keys <= observed.Keys)
           || (exists q :: q in observed && q !in expected && q !in volatile)
           || (exists q :: q in expected && observed[q] != expected[q])
           || (exists q :: q in observed && q !in expected && observed[q].Directory?)
      then Drifted(observed)
      else Matched(observed)
  }

  lemma MatchedIsProjection(observed: Tree, baseline: Tree, completed: map<Path, Content>, volatile: seq<Path>)
    requires VerifyWorkspace(observed, baseline, completed, volatile) == Matched(observed)
    ensures Project(baseline, completed + Present(observed, volatile)) == Some(observed)
  {
    hide VerifyWorkspace;
    MatchedMeans(observed, baseline, completed, volatile);
    var all := completed + Present(observed, volatile);
    var projected := baseline + AsFiles(all);
    assert projected.Keys == observed.Keys;
    forall q | q in observed ensures observed[q] == projected[q] {
      assert q in all ==> q !in baseline;
    }
    assert projected == observed;
  }

  /** What acceptance says path by path. */
  lemma MatchedMeans(observed: Tree, baseline: Tree, completed: map<Path, Content>, volatile: seq<Path>)
    requires VerifyWorkspace(observed, baseline, completed, volatile) == Matched(observed)
    ensures forall q :: q in baseline ==>
      q !in completed && q !in volatile && q in observed && observed[q] == baseline[q]
    ensures forall q :: q in completed ==> q !in volatile && q in observed && observed[q] == File(completed[q])
    ensures forall q :: q in observed && q !in baseline && q !in completed ==> q in volatile && observed[q].File?
  {
    var expected := baseline + AsFiles(completed);
    assert forall q :: q in expected ==> q in expected.Keys;
  }

  lemma ProjectionIsMatched(observed: Tree, baseline: Tree, completed: map<Path, Content>, volatile: seq<Path>)
    requires forall q :: q in volatile ==> q !in baseline && q !in completed
    requires Project(baseline, completed + Present(observed, volatile)) == Some(observed)
    ensures VerifyWorkspace(observed, baseline, completed, volatile) == Matched(observed)
  {
    hide VerifyWorkspace;
    var all := completed + Present(observed, volatile);
    assert completed.Keys <= all.Keys;
    assert observed == baseline + AsFiles(all);
    forall q | q in observed && q !in baseline && q !in completed ensures q in volatile && observed[q].File? {
      assert q in all;
    }
    MeansMatched(observed, baseline, completed, volatile);
  }

  lemma MeansMatched(observed: Tree, baseline: Tree, completed: map<Path, Content>, volatile: seq<Path>)
    requires forall q :: q in baseline ==>
      q !in completed && q !in volatile && q in observed && observed[q] == baseline[q]
    requires forall q :: q in completed ==> q !in volatile && q in observed && observed[q] == File(completed[q])
    requires forall q :: q in observed && q !in baseline && q !in completed ==> q in volatile && observed[q].File?
    ensures VerifyWorkspace(observed, baseline, completed, volatile) == Matched(observed)
  {
  }

  /** Acceptance means the observed summary is the projection of the baseline, the completed
      outputs and the volatile files present; and every tree of that form is accepted. */
  lemma VerifyIsProjection(observed: Tree, baseline: Tree, completed: map<Path, Content>, volatile: seq<Path>)
    requires forall q :: q in volatile ==> q !in baseline && q !in completed
    ensures VerifyWorkspace(observed, baseline, completed, volatile) == Matched(observed)
       <==> Project(baseline, completed + Present(observed, volatile)) == Some(observed)
  {
    if VerifyWorkspace(observed, baseline, completed, volatile) == Matched(observed) {
      MatchedIsProjection(observed, baseline, completed, volatile);
    }
    if Project(baseline, completed + Present(observed, volatile)) == Some(observed) {
      ProjectionIsMatched(observed, baseline, completed, volatile);
    }
  }

  lemma VerifyClean(observed: Tree, baseline: Tree, completed: map<Path, Content>)
    ensures VerifyWorkspace(observed, baseline, completed, []) == Matched(observed)
       <==> Project(baseline, completed) == Some(observed)
  {
    VerifyIsProjection(observed, baseline, completed, []);
    assert Present(observed, []) == map[];
    assert completed + map[] == completed;
  }
}
