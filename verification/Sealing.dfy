/** Sealing a completed run in bundle.json, and verifying a disk against it. */
module Sealing {
  import opened Basics
  import opened Events
  import opened EventLog
  import opened WorkspaceTree
  import opened RunState
  import opened World
  import opened Load

  // ---------------------------------------------------------------- artifacts

  /** `_artifact_paths` as a set. */
  function Artifacts(w: World): set<ArtifactPath>
  {
    {PlanFile, StateFile, EventsFile}
    + (set key | key in w.logs :: LogFile(key))
    + (set name | name in w.quarantine :: QuarantineFile(name))
  }

  lemma ArtifactsExist(w: World, a: ArtifactPath)
    ensures a in Artifacts(w) <==> ArtifactExists(w, a)
  {
  }

  predicate ArtifactsMatch(w: World, recorded: map<ArtifactPath, Stored>)
  {
    && recorded.Keys == Artifacts(w)
    && forall a :: a in recorded ==> ArtifactExists(w, a) && recorded[a] == ArtifactId(w, a)
  }

  predicate DistinctPaths(artifacts: seq<Artifact>)
  {
    forall j, k :: 0 <= j < k < |artifacts| ==> artifacts[j].path != artifacts[k].path
  }

  predicate IsIndex(artifacts: seq<Artifact>, recorded: map<ArtifactPath, Stored>)
  {
    && (forall k :: 0 <= k < |artifacts| ==>
          artifacts[k].path in recorded && recorded[artifacts[k].path] == artifacts[k].id)
    && (forall a :: a in recorded ==> exists k :: 0 <= k < |artifacts| && artifacts[k].path == a)
  }

  method IndexArtifacts(artifacts: seq<Artifact>) returns (recorded: Option<map<ArtifactPath, Stored>>)
    ensures recorded.Some? <==> DistinctPaths(artifacts)
    ensures recorded.Some? ==> IsIndex(artifacts, recorded.value)
  {
    var seen: map<ArtifactPath, Stored> := map[];
    for k := 0 to |artifacts|
      invariant DistinctPaths(artifacts[..k])
      invariant IsIndex(artifacts[..k], seen)
    {
      var a := artifacts[k];
      if a.path in seen {
        ghost var j :| 0 <= j < k && artifacts[..k][j].path == a.path;
        assert artifacts[j].path == artifacts[k].path;
        return None;
      }
      var next := seen[a.path := a.id];
      ghost var front := artifacts[..k + 1];
      assert front == artifacts[..k] + [a];
      forall x | x in next ensures exists j :: 0 <= j < |front| && front[j].path == x {
        if x in seen {
          ghost var j :| 0 <= j < k && artifacts[..k][j].path == x;
          assert front[j].path == x;
        } else {
          assert front[k].path == x;
        }
      }
      seen := next;
    }
    assert artifacts[..|artifacts|] == artifacts;
    recorded := Some(seen);
  }

  // ---------------------------------------------------------------- verification

  /** Every output the evidence vouches for is in the workspace, unchanged. */
  predicate OutputsMatch(p: Plan, w: World)
    requires |w.state.tasks| == |p.tasks|
  {
    forall o :: o in FinalOutputs(p, w.state.tasks, |p.tasks|) ==> o.path in w.files && w.files[o.path] == File(o.id)
  }

  predicate FinalOk(p: Plan, w: World, b: Bundle)
  {
    if p.version == 3 then
      && p.scannable(w.files)
      && VerifyWorkspace(w.files, p.baseline, Sealed(w.state.tasks, |w.state.tasks|), []).Matched?
      && b.final == Some(w.files)
    else b.final.None?
  }

  /** What `_verify_run_checked` accepts. */
  ghost predicate VerifyOk(p: Plan, w: World)
  {
    && LoadOk(p, w)
    && |w.state.tasks| == |p.tasks|
    && w.state.pending.None? && w.state.status == RunCompleted
    && w.bundle.Some?
    && FinalOk(p, w, w.bundle.value)
    && w.bundle.value.outputs == FinalOutputs(p, w.state.tasks, |p.tasks|)
    && OutputsMatch(p, w)
    && DistinctPaths(w.bundle.value.artifacts)
    && exists recorded :: IsIndex(w.bundle.value.artifacts, recorded) && ArtifactsMatch(w, recorded)
  }

  lemma IndexIsUnique(artifacts: seq<Artifact>, r: map<ArtifactPath, Stored>, s: map<ArtifactPath, Stored>)
    requires IsIndex(artifacts, r) && IsIndex(artifacts, s)
    ensures r == s
  {
    forall a | a in r ensures a in s && r[a] == s[a] {
      var k :| 0 <= k < |artifacts| && artifacts[k].path == a;
    }
    forall a | a in s ensures a in r {
      var k :| 0 <= k < |artifacts| && artifacts[k].path == a;
    }
  }

  method CheckOutputs(w: World, outputs: seq<OutputRecord>) returns (ok: bool)
    ensures ok == forall o :: o in outputs ==> o.path in w.files && w.files[o.path] == File(o.id)
  {
    for k := 0 to |outputs|
      invariant forall j :: 0 <= j < k ==> outputs[j].path in w.files && w.files[outputs[j].path] == File(outputs[j].id)
    {
      if !(outputs[k].path in w.files && w.files[outputs[k].path] == File(outputs[k].id)) {
        assert outputs[k] in outputs;
        return false;
      }
    }
    ok := true;
  }

  method VerifyRun(p: Plan, w: World) returns (ok: bool)
    requires Lawful(p.codec)
    ensures ok == VerifyOk(p, w)
  {
    hide Lawful, LoadOk, FinalOk, FinalOutputs, IsIndex, ArtifactsMatch, DistinctPaths;
    var loaded := LoadContext(p, w);
    if loaded.None? || |w.state.tasks| != |p.tasks| || w.state.pending.Some? || w.state.status != RunCompleted ||
        w.bundle.None? {
      return false;
    }
    var b := w.bundle.value;
    var outputs := FinalOutputs(p, w.state.tasks, |p.tasks|);
    if !FinalOk(p, w, b) || b.outputs != outputs {
      return false;
    }
    var matched := CheckOutputs(w, outputs);
    if !matched {
      return false;
    }
    var recorded := IndexArtifacts(b.artifacts);
    if recorded.None? {
      return false;
    }
    forall r | IsIndex(b.artifacts, r) ensures r == recorded.value {
      IndexIsUnique(b.artifacts, r, recorded.value);
    }
    ok := ArtifactsMatch(w, recorded.value);
  }

  lemma VerifiedIsListed(p: Plan, w: World)
    requires VerifyOk(p, w)
    ensures BundleFor(p, w, w.bundle.value)
  {
    hide LoadOk, FinalOutputs, VerifyWorkspace, OutputsMatch, IsIndex, ArtifactsMatch, ArtifactExists;
    hide ArtifactId, Sealed;
    var b := w.bundle.value;
    var recorded :| IsIndex(b.artifacts, recorded) && ArtifactsMatch(w, recorded);
    IndexListsAll(w, b.artifacts, recorded);
  }

  lemma IndexListsAll(w: World, artifacts: seq<Artifact>, recorded: map<ArtifactPath, Stored>)
    requires IsIndex(artifacts, recorded) && ArtifactsMatch(w, recorded)
    ensures forall k :: 0 <= k < |artifacts| ==>
      ArtifactExists(w, artifacts[k].path) && artifacts[k].id == ArtifactId(w, artifacts[k].path)
    ensures forall a :: ArtifactExists(w, a) ==> exists k :: 0 <= k < |artifacts| && artifacts[k].path == a
  {
    hide ArtifactExists, ArtifactId, Artifacts;
    forall k | 0 <= k < |artifacts|
      ensures ArtifactExists(w, artifacts[k].path) && artifacts[k].id == ArtifactId(w, artifacts[k].path)
    {
      assert artifacts[k].path in recorded;
    }
    forall a | ArtifactExists(w, a) ensures exists k :: 0 <= k < |artifacts| && artifacts[k].path == a {
      ArtifactsExist(w, a);
      assert a in recorded.Keys;
    }
  }

  // ---------------------------------------------------------------- sealing and verification agree

  lemma SameArtifact(p: Plan, w: World, w': World, b: Bundle, a: ArtifactPath)
    requires |w.state.tasks| == |p.tasks| == |w'.state.tasks| && BundleFor(p, w, b) && BundleFor(p, w', b)
    ensures ArtifactExists(w, a) <==> ArtifactExists(w', a)
    ensures ArtifactExists(w, a) ==> ArtifactId(w, a) == ArtifactId(w', a)
  {
    hide FinalOutputs;
    if ArtifactExists(w, a) || ArtifactExists(w', a) {
      var k :| 0 <= k < |b.artifacts| && b.artifacts[k].path == a;
      assert ArtifactExists(w, b.artifacts[k].path) && ArtifactExists(w', b.artifacts[k].path);
      assert b.artifacts[k].id == ArtifactId(w, a) && b.artifacts[k].id == ArtifactId(w', a);
    }
  }

  /** Any disk that verifies against a bundle holds exactly the artifacts, the artifact contents and
      the outputs that were present when the bundle was written. */
  lemma VerifiedIsSealed(p: Plan, w: World, w': World, b: Bundle)
    requires |w.state.tasks| == |p.tasks| && BundleFor(p, w, b) && w'.bundle == Some(b) && VerifyOk(p, w')
    ensures w'.state == w.state && w'.log == w.log && w'.logs == w.logs && w'.quarantine == w.quarantine
    ensures forall o :: o in b.outputs ==> o.path in w'.files && w'.files[o.path] == File(o.id)
    ensures p.version == 3 ==> w'.files == w.files
  {
    hide LoadOk, FinalOutputs, BundleFor, DistinctPaths, IsIndex, ArtifactsMatch, FinalOk;
    VerifiedIsListed(p, w');
    SameArtifact(p, w, w', b, StateFile);
    SameArtifact(p, w, w', b, EventsFile);
    forall key ensures (key in w.logs <==> key in w'.logs) && (key in w.logs ==> w.logs[key] == w'.logs[key]) {
      SameArtifact(p, w, w', b, LogFile(key));
    }
    forall name ensures (name in w.quarantine <==> name in w'.quarantine) &&
        (name in w.quarantine ==> w.quarantine[name] == w'.quarantine[name]) {
      SameArtifact(p, w, w', b, QuarantineFile(name));
    }
    FinalTrees(p, w, w', b);
  }

  lemma FinalTrees(p: Plan, w: World, w': World, b: Bundle)
    requires |w.state.tasks| == |p.tasks| && BundleFor(p, w, b) && FinalOk(p, w', b)
    ensures p.version == 3 ==> w'.files == w.files
  {
    hide FinalOutputs;
  }

  /** The index of a complete listing. */
  lemma ListingHasIndex(p: Plan, w: World, b: Bundle) returns (recorded: map<ArtifactPath, Stored>)
    requires |w.state.tasks| == |p.tasks| && BundleFor(p, w, b)
    ensures IsIndex(b.artifacts, recorded) && ArtifactsMatch(w, recorded)
  {
    hide FinalOutputs, Artifacts, ArtifactExists, ArtifactId;
    recorded := AllArtifacts(w);
    forall k | 0 <= k < |b.artifacts| ensures b.artifacts[k].path in recorded {
      ArtifactsExist(w, b.artifacts[k].path);
    }
    forall a | a in recorded ensures exists k :: 0 <= k < |b.artifacts| && b.artifacts[k].path == a {
      ArtifactsExist(w, a);
    }
  }

  lemma AllArtifacts(w: World) returns (recorded: map<ArtifactPath, Stored>)
    ensures ArtifactsMatch(w, recorded)
  {
    hide Artifacts, ArtifactExists, ArtifactId;
    forall a | a in Artifacts(w) ensures ArtifactExists(w, a) {
      ArtifactsExist(w, a);
    }
    recorded := map a | a in Artifacts(w) :: ArtifactId(w, a);
  }

  lemma LoadIgnoresBundle(p: Plan, w: World, w': World)
    requires w == w'.(bundle := w.bundle) && LoadOk(p, w)
    ensures LoadOk(p, w')
  {
    hide StateOk, LogStatus, HistoryOk, VerifyWorkspace, Project, Moved, Present, Sealed, LogsOk, QuarantineFilesOk;
    LogsFrame(w, w');
    QuarantineFrame(p, w, w');
    forall i: nat | i < |p.tasks| && i < |w.state.tasks| && w.state.tasks[i].attempts != []
      ensures RecoveryObservable(p, w', i) == RecoveryObservable(p, w, i)
    {
    }
  }

  /** Verification right after sealing succeeds, unless loading or a completed output had drifted. */
  lemma SealThenVerify(p: Plan, w: World, b: Bundle, w': World)
    requires Does(p, w, Seal(b), w')
    ensures |w.state.tasks| == |p.tasks|
    ensures VerifyOk(p, w') <==> LoadOk(p, w) && OutputsMatch(p, w)
  {
    hide LoadOk, FinalOutputs, IsIndex, ArtifactsMatch, VerifyWorkspace;
    SealFacts(p, w, b, w');
    if LoadOk(p, w) {
      LoadIgnoresBundle(p, w, w');
    }
    if LoadOk(p, w') {
      LoadIgnoresBundle(p, w', w);
    }
    var recorded := ListingHasIndex(p, w', b);
    if LoadOk(p, w) && p.version == 3 {
      CompletedScan(p, w);
    }
  }

  lemma SealFacts(p: Plan, w: World, b: Bundle, w': World)
    requires Does(p, w, Seal(b), w')
    ensures w' == w.(bundle := Some(b)) && |w.state.tasks| == |p.tasks|
    ensures w.state.pending.None? && w.state.status == RunCompleted
    ensures BundleFor(p, w', b) && BundleFor(p, w, b)
    ensures p.version == 3 ==> VerifyWorkspace(w.files, p.baseline, Sealed(w.state.tasks, |w.state.tasks|), []).Matched?
  {
    hide FinalOutputs, VerifyWorkspace;
    forall a ensures ArtifactExists(w', a) <==> ArtifactExists(w, a) {
    }
  }

  lemma CompletedScan(p: Plan, w: World)
    requires LoadOk(p, w) && p.version == 3
    ensures p.scannable(w.files)
  {
    hide StateOk, LogStatus, LogsOk, QuarantineFilesOk, HistoryOk, RecoveryObservable, VerifyWorkspace;
  }

  // ---------------------------------------------------------------- writing the bundle

  predicate Lists(w: World, artifacts: seq<Artifact>, paths: set<ArtifactPath>)
  {
    && DistinctPaths(artifacts)
    && (forall k :: 0 <= k < |artifacts| ==>
          artifacts[k].path in paths && ArtifactExists(w, artifacts[k].path) &&
              artifacts[k].id == ArtifactId(w, artifacts[k].path))
    && (forall a :: a in paths ==> exists k :: 0 <= k < |artifacts| && artifacts[k].path == a)
  }

  lemma ListsOneMore(w: World, artifacts: seq<Artifact>, paths: set<ArtifactPath>, a: ArtifactPath)
    requires Lists(w, artifacts, paths) && a !in paths && ArtifactExists(w, a)
    ensures Lists(w, artifacts + [Artifact(a, ArtifactId(w, a))], paths + {a})
  {
    hide ArtifactExists, ArtifactId;
    var more := artifacts + [Artifact(a, ArtifactId(w, a))];
    assert more[|artifacts|].path == a;
    forall x | x in paths ensures exists k :: 0 <= k < |more| && more[k].path == x {
      var k :| 0 <= k < |artifacts| && artifacts[k].path == x;
      assert more[k].path == x;
    }
  }

  method ListArtifacts(w: World) returns (artifacts: seq<Artifact>)
    ensures Lists(w, artifacts, Artifacts(w))
  {
    hide Lists, ArtifactExists, ArtifactId, Artifacts;
    artifacts := [];
    var todo := Artifacts(w);
    ghost var done: set<ArtifactPath> := {};
    EmptyListing(w);
    while todo != {}
      invariant done + todo == Artifacts(w) && done !! todo
      invariant Lists(w, artifacts, done)
      decreases |todo|
    {
      var a :| a in todo;
      ArtifactsExist(w, a);
      ListsOneMore(w, artifacts, done, a);
      artifacts := artifacts + [Artifact(a, ArtifactId(w, a))];
      todo, done := todo - {a}, done + {a};
    }
    assert done == Artifacts(w);
  }

  lemma EmptyListing(w: World)
    ensures Lists(w, [], {})
  {
  }

  lemma ListingIsBundle(p: Plan, w: World, b: Bundle)
    requires |w.state.tasks| == |p.tasks| && Lists(w, b.artifacts, Artifacts(w))
    requires b.outputs == FinalOutputs(p, w.state.tasks, |p.tasks|)
    requires b.final == (if p.version == 3 then Some(w.files) else None)
    ensures BundleFor(p, w, b)
  {
    hide FinalOutputs, ArtifactId, ArtifactExists, Artifacts;
    forall a | ArtifactExists(w, a) ensures exists k :: 0 <= k < |b.artifacts| && b.artifacts[k].path == a {
      ArtifactsExist(w, a);
    }
  }

  /** `_build_bundle` refuses only unstable evidence, an existing bundle or a drifted workspace. */
  method BuildBundle(p: Plan, w: World) returns (r: Option<Bundle>)
    requires Lawful(p.codec) && |w.state.tasks| == |p.tasks|
    ensures r.Some? <==>
      && w.state.pending.None? && w.bundle.None?
      && LogStatus(p.codec, p.Head(), w.log, w.state.eventLog, w.state.pending) == Some(Stable)
      && (p.version == 3 ==>
            p.scannable(w.files) && VerifyWorkspace(w.files, p.baseline, Sealed(w.state.tasks, |w.state.tasks|),
                []).Matched?)
    ensures r.Some? ==> BundleFor(p, w, r.value)
  {
    hide Lawful, LogStatus, VerifyWorkspace, FinalOutputs, Sealed, Lists, BundleFor, Artifacts;
    if w.state.pending.Some? {
      return None;
    }
    var status := EventTransitionStatus(p.codec, p.Head(), w.log, w.state.eventLog, w.state.pending);
    if status != Some(Stable) || w.bundle.Some? {
      return None;
    }
    if p.version == 3 && !(p.scannable(w.files) &&
        VerifyWorkspace(w.files, p.baseline, Sealed(w.state.tasks, |w.state.tasks|), []).Matched?) {
      return None;
    }
    var artifacts := ListArtifacts(w);
    var b := Bundle(artifacts, FinalOutputs(p, w.state.tasks, |p.tasks|), if p.version == 3 then Some(w.files)
        else None);
    ListingIsBundle(p, w, b);
    r := Some(b);
  }
}
