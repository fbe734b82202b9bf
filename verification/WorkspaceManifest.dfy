/** The two-pass observation, the canonical manifest, and the snapshot round trip. */
module WorkspaceManifest {
  import opened Basics
  import opened WorkspaceScan

  // ---------------------------------------------------------------- trees as a file system holds them

  predicate DistinctNames(nodes: seq<Node>) { forall i, j :: 0 <= i < j < |nodes| ==> nodes[i].name != nodes[j].name }

  predicate WellFormed(nodes: seq<Node>)
    decreases nodes
  {
    && DistinctNames(nodes)
    && (nodes == [] || (WellFormed(nodes[..|nodes| - 1]) && WellFormedOne(nodes[|nodes| - 1])))
  }

  predicate WellFormedOne(n: Node)
    decreases n
  {
    GoodName(n.name) && (n.Folder? ==> WellFormed(n.children))
  }

  /** `p` lies strictly under `at`, through good names, the first of which is `n`. */
  predicate Under(at: Path, n: Name, p: Path)
  {
    |at| < |p| && p[..|at|] == at && p[|at|] == n && forall k :: |at| <= k < |p| ==> GoodName(p[k])
  }

  lemma {:induction false} EntriesUnder(at: Path, nodes: seq<Node>, e: Entry)
    requires WellFormed(nodes) && e in Flatten(at, nodes)
    ensures exists i :: 0 <= i < |nodes| && Under(at, nodes[i].name, e.path)
    decreases nodes
  {
    var front, last := nodes[..|nodes| - 1], nodes[|nodes| - 1];
    if e in Flatten(at, front) {
      EntriesUnder(at, front, e);
      var i :| 0 <= i < |front| && Under(at, front[i].name, e.path);
      assert nodes[i] == front[i];
    } else {
      EntriesUnderOne(at, last, e);
    }
  }

  lemma {:induction false} EntriesUnderOne(at: Path, n: Node, e: Entry)
    requires WellFormedOne(n) && e in FlattenOne(at, n)
    ensures Under(at, n.name, e.path)
    decreases n
  {
    var p := at + [n.name];
    assert Under(at, n.name, p);
    if n.Folder? && e.path != p {
      assert e in Flatten(p, n.children);
      EntriesUnder(p, n.children, e);
      assert e.path[..|at|] == p[..|at|] == at;
    }
  }

  lemma {:induction false} FlattenUnique(at: Path, nodes: seq<Node>)
    requires WellFormed(nodes)
    ensures Unique(Flatten(at, nodes))
    decreases nodes
  {
    if nodes != [] {
      var front, last := nodes[..|nodes| - 1], nodes[|nodes| - 1];
      FlattenUnique(at, front);
      FlattenUniqueOne(at, last);
      var a, b := Flatten(at, front), FlattenOne(at, last);
      forall e, f | e in a && f in b ensures e.path != f.path {
        EntriesUnder(at, front, e);
        EntriesUnderOne(at, last, f);
        var i :| 0 <= i < |front| && Under(at, front[i].name, e.path);
        assert nodes[i].name != last.name;
      }
      UniqueSum(a, b);
    }
  }

  lemma UniqueSum(a: seq<Entry>, b: seq<Entry>)
    requires Unique(a) && Unique(b) && forall e, f :: e in a && f in b ==> e.path != f.path
    ensures Unique(a + b)
  {
    var c := a + b;
    forall i, j | 0 <= i < j < |c| ensures c[i].path != c[j].path {
      if i < |a| <= j {
        assert c[i] in a && c[j] in b;
      }
    }
  }

  lemma {:induction false} FlattenUniqueOne(at: Path, n: Node)
    requires WellFormedOne(n)
    ensures Unique(FlattenOne(at, n))
    decreases n
  {
    if n.Folder? {
      var p := at + [n.name];
      var b := Flatten(p, n.children);
      FlattenUnique(p, n.children);
      forall f | f in b ensures f.path != p {
        EntriesUnder(p, n.children, f);
      }
      UniqueSum([DirEntry(p)], b);
    }
  }

  lemma FlattenGood(nodes: seq<Node>)
    requires WellFormed(nodes)
    ensures Unique(Flatten([], nodes)) && forall e :: e in Flatten([], nodes) ==> GoodPath(e.path)
  {
    FlattenUnique([], nodes);
    forall e | e in Flatten([], nodes) ensures GoodPath(e.path) {
      EntriesUnder([], nodes, e);
    }
  }

  /** Every proper ancestor of an entry is a directory entry. */
  predicate Parented(es: seq<Entry>, above: nat, e: Entry)
  {
    forall d :: above < d < |e.path| ==> DirEntry(e.path[..d]) in es
  }

  lemma {:induction false} FlattenParented(at: Path, nodes: seq<Node>, e: Entry)
    requires WellFormed(nodes) && e in Flatten(at, nodes)
    ensures Parented(Flatten(at, nodes), |at|, e)
    decreases nodes
  {
    var front, last := nodes[..|nodes| - 1], nodes[|nodes| - 1];
    if e in Flatten(at, front) {
      FlattenParented(at, front, e);
    } else {
      FlattenParentedOne(at, last, e);
    }
  }

  lemma {:induction false} FlattenParentedOne(at: Path, n: Node, e: Entry)
    requires WellFormedOne(n) && e in FlattenOne(at, n)
    ensures Parented(FlattenOne(at, n), |at|, e)
    decreases n
  {
    if n.Folder? {
      var p := at + [n.name];
      if e in Flatten(p, n.children) {
        FlattenParented(p, n.children, e);
        EntriesUnder(p, n.children, e);
        assert e.path[..|p|] == p;
      }
    }
  }

  // ---------------------------------------------------------------- observing

  lemma SoundTree(r: Rules, nodes: seq<Node>, entries: seq<Entry>, aliases: map<seq<string>, Path>)
    requires Splits(nodes, entries, [], [], []) && Sound(r, entries, aliases)
    requires TotalBytes(entries) <= MAX_TOTAL_BYTES && |entries| <= MAX_ENTRIES
    ensures Acceptable(r, nodes) && multiset(entries) == multiset(Flatten([], nodes))
  {
    var all := Flatten([], nodes);
    assert entries + Pending([]) + Flatten([], []) == entries;
    SoundHasNoAliases(r, entries, aliases);
    forall e ensures e in all <==> e in entries {
      SplitsMembers(nodes, entries, [], [], [], e);
    }
    SplitsSizes(nodes, entries, [], [], []);
  }

  lemma SameMembers(a: seq<Entry>, b: seq<Entry>)
    requires multiset(a) == multiset(b)
    ensures |a| == |b| && forall e :: e in a <==> e in b
  {
    assert |a| == |multiset(a)| == |multiset(b)| == |b|;
    forall e ensures e in a <==> e in b {
      assert e in multiset(a) <==> e in a;
      assert e in multiset(b) <==> e in b;
    }
  }

  lemma UniqueAcross(a: seq<Entry>, b: seq<Entry>)
    requires multiset(a) == multiset(b) && Unique(b)
    ensures Unique(a)
  {
    SameMembers(a, b);
    forall i, j | 0 <= i < j < |a| ensures a[i].path != a[j].path {
      if a[i].path == a[j].path {
        SamePathTwice(a, i, j, b);
        assert false;
      }
    }
  }

  lemma SamePathTwice(a: seq<Entry>, i: nat, j: nat, b: seq<Entry>)
    requires multiset(a) == multiset(b) && i < j < |a| && a[i].path == a[j].path
    ensures !Unique(b)
  {
    SameMembers(a, b);
    if a[i] == a[j] {
      var e := a[i];
      TwoPlaces(a, i, j);
      Twice(b, e);
    } else {
      assert a[i] in a && a[j] in a;
      var x :| 0 <= x < |b| && b[x] == a[i];
      var y :| 0 <= y < |b| && b[y] == a[j];
      assert x < y || y < x;
    }
  }

  lemma TwoPlaces(a: seq<Entry>, i: nat, j: nat)
    requires i < j < |a| && a[i] == a[j]
    ensures multiset(a)[a[i]] >= 2
  {
    assert a == a[..j] + [a[j]] + a[j + 1..];
    assert a[i] in multiset(a[..j]) by {
      assert a[..j][i] == a[i];
    }
  }

  lemma {:induction false} Twice(b: seq<Entry>, e: Entry)
    requires multiset(b)[e] >= 2
    ensures !Unique(b)
    decreases |b|
  {
    var front, last := b[..|b| - 1], b[|b| - 1];
    assert b == front + [last];
    if last == e {
      assert e in multiset(front);
      var i :| 0 <= i < |front| && front[i] == e;
      assert b[i].path == b[|b| - 1].path;
    } else {
      Twice(front, e);
      var i, j :| 0 <= i < j < |front| && front[i].path == front[j].path;
      assert b[i].path == b[j].path;
    }
  }

  /** `_scan_workspace_once`: accepts exactly the acceptable trees, and returns their entries in UTF-8 order. */
  method ScanWorkspaceOnce(r: Rules, nodes: seq<Node>) returns (result: Option<seq<Entry>>)
    requires WellFormed(nodes)
    ensures result.Some? <==> Acceptable(r, nodes)
    ensures result.Some? ==> Sorted(result.value) && multiset(result.value) == multiset(Flatten([], nodes))
  {
    hide Splits, Sound, Flatten, TotalBytes, Ordinary, Pending, NoAliases, StackSize, Size, PendingOrdinary;
    hide Acceptable, WellFormed, Sorted, Unique, GoodPath;
    var entries: seq<Entry>, aliases: map<seq<string>, Path>, total: nat := [], map[], 0;
    var stack := [Frame([], nodes)];
    Start(nodes);
    NothingYet(r);
    while stack != []
      invariant Splits(nodes, entries, stack, [], []) && Sound(r, entries, aliases)
      invariant total == TotalBytes(entries) <= MAX_TOTAL_BYTES && |entries| <= MAX_ENTRIES
      decreases StackSize(stack)
    {
      var top, below := stack[|stack| - 1], stack[..|stack| - 1];
      OpenTop(nodes, entries, stack);
      assert stack == below + [top];
      Push(below, top);
      var ok: bool;
      ok, entries, aliases, total, stack := ScanDirectory(r, nodes, entries, aliases, total, below, top);
      if !ok {
        return None;
      }
    }
    SoundTree(r, nodes, entries, aliases);
    FlattenGood(nodes);
    UniqueAcross(entries, Flatten([], nodes));
    SameMembers(entries, Flatten([], nodes));
    var ordered := SortEntries(entries);
    result := Some(ordered);
  }

  lemma NothingYet(r: Rules)
    ensures Sound(r, [], map[]) && TotalBytes([]) == 0
  {
  }

  // ---------------------------------------------------------------- the manifest

  /** What `_validate_manifest_value` accepts. */
  ghost predicate ManifestOk(r: Rules, es: seq<Entry>)
  {
    && |es| <= MAX_ENTRIES
    && (forall e :: e in es ==> EntryOk(r, e))
    && Unique(es) && NoAliases(r, es)
    && TotalBytes(es) <= MAX_TOTAL_BYTES
    && Sorted(es)
    && forall e :: e in es ==> Parented(es, 0, e)
  }

  /** Portable paths are made of good names. */
  ghost predicate Sane(r: Rules)
  {
    forall p :: r.portable(p) ==> GoodPath(p)
  }

  ghost function Paths(es: seq<Entry>): set<Path> { set e | e in es :: e.path }

  ghost function Directories(es: seq<Entry>): set<Path> { set e | e in es && e.DirEntry? :: e.path }

  /** The first loop of the validator: everything but order and parents. */
  ghost predicate FieldsOk(r: Rules, es: seq<Entry>)
  {
    && (forall e :: e in es ==> EntryOk(r, e)) && Unique(es) && NoAliases(r, es) && TotalBytes(es) <= MAX_TOTAL_BYTES
  }

  lemma {:induction false} TotalPrefix(es: seq<Entry>, n: nat)
    requires n <= |es|
    ensures TotalBytes(es[..n]) <= TotalBytes(es)
  {
    TotalSum(es[..n], es[n..]);
    assert es == es[..n] + es[n..];
  }

  method ValidateFields(r: Rules, es: seq<Entry>) returns (ok: bool, directories: set<Path>)
    ensures ok <==> FieldsOk(r, es)
    ensures ok ==> directories == Directories(es)
  {
    hide TotalBytes, Canonical;
    var paths: set<Path>, aliases: map<seq<string>, Path>, total: nat := {}, map[], 0;
    directories := {};
    NothingYet(r);
    for n := 0 to |es|
      invariant Sound(r, es[..n], aliases) && Unique(es[..n]) && total == TotalBytes(es[..n]) <= MAX_TOTAL_BYTES
      invariant paths == Paths(es[..n]) && directories == Directories(es[..n])
    {
      var e, seen := es[n], es[..n];
      assert es[..n + 1] == seen + [e];
      assert e in es;
      TotalPrefix(es, n + 1);
      OneMore(seen, e);
      if !Canonical(r, e.path) {
        return false, {};
      }
      if e.path in paths {
        ghost var f :| f in seen && f.path == e.path;
        ghost var i :| 0 <= i < n && es[i] == f;
        return false, {};
      }
      if r.key(e.path) in aliases && aliases[r.key(e.path)] != e.path {
        ghost var f :| f in seen && f.path == aliases[r.key(e.path)] && r.key(f.path) == r.key(e.path);
        assert f in es && Aliases(r, e.path, f.path);
        return false, {};
      }
      if FileBytes(e) > MAX_FILE_BYTES || total + FileBytes(e) > MAX_TOTAL_BYTES {
        return false, {};
      }
      SoundMore(r, seen, aliases, e);
      aliases, paths, total := aliases[r.key(e.path) := e.path], paths + {e.path}, total + FileBytes(e);
      if e.DirEntry? {
        directories := directories + {e.path};
      }
    }
    assert es[..|es|] == es;
    SoundHasNoAliases(r, es, aliases);
    ok := true;
  }

  lemma DirectoryEntries(es: seq<Entry>, p: Path)
    ensures p in Directories(es) <==> DirEntry(p) in es
  {
    if p in Directories(es) {
      var e :| e in es && e.DirEntry? && e.path == p;
      assert e == DirEntry(p);
    }
  }

  method CheckParents(es: seq<Entry>, directories: set<Path>) returns (ok: bool)
    requires directories == Directories(es)
    ensures ok <==> forall e :: e in es ==> Parented(es, 0, e)
  {
    for n := 0 to |es|
      invariant forall i :: 0 <= i < n ==> Parented(es, 0, es[i])
    {
      var p := es[n].path;
      var d := 1;
      while d < |p|
        invariant 1 <= d && forall c :: 0 < c < d && c < |p| ==> DirEntry(p[..c]) in es
      {
        DirectoryEntries(es, p[..d]);
        if p[..d] !in directories {
          assert !Parented(es, 0, es[n]) && es[n] in es;
          return false;
        }
        d := d + 1;
      }
    }
    ok := true;
  }

  /** `_validate_manifest_value`, on decoded entries. */
  method ValidateManifest(r: Rules, es: seq<Entry>) returns (ok: bool)
    requires Sane(r)
    ensures ok <==> ManifestOk(r, es)
  {
    hide TotalBytes, Sorted, Unique, NoAliases, GoodPath, Parented, Directories;
    if |es| > MAX_ENTRIES {
      return false;
    }
    var directories: set<Path>;
    ok, directories := ValidateFields(r, es);
    if !ok {
      return false;
    }
    var ordered := SortEntries(es);
    if Sorted(es) {
      SortedIsUnique(es, ordered);
    }
    if es != ordered {
      return false;
    }
    ok := CheckParents(es, directories);
  }

  // ---------------------------------------------------------------- round trip

  /** A snapshot of an acceptable tree is a manifest that loading accepts. */
  lemma SnapshotLoads(r: Rules, nodes: seq<Node>, es: seq<Entry>)
    requires WellFormed(nodes) && Acceptable(r, nodes)
    requires Sorted(es) && multiset(es) == multiset(Flatten([], nodes))
    ensures ManifestOk(r, es)
  {
    var all := Flatten([], nodes);
    FlattenGood(nodes);
    hide Flatten, Sorted, Unique, TotalBytes, WellFormed, Ordinary, EntryOk, GoodPath;
    SameMembers(es, all);
    UniqueAcross(es, all);
    SameTotal(es, all);
    forall e | e in es ensures Parented(es, 0, e) {
      FlattenParented([], nodes, e);
    }
  }

  lemma {:induction false} SameTotal(a: seq<Entry>, b: seq<Entry>)
    requires multiset(a) == multiset(b)
    ensures TotalBytes(a) == TotalBytes(b)
    decreases |a|
  {
    SameMembers(a, b);
    if a != [] {
      var front, last := a[..|a| - 1], a[|a| - 1];
      assert a == front + [last];
      assert last in a;
      var k :| 0 <= k < |b| && b[k] == last;
      var without := b[..k] + b[k + 1..];
      assert b == b[..k] + ([last] + b[k + 1..]);
      assert multiset(a) == multiset(front) + multiset{last};
      assert multiset(b) == multiset(without) + multiset{last};
      assert multiset(front) == multiset(a) - multiset{last} == multiset(without);
      SameTotal(front, without);
      TotalSum(front, [last]);
      TotalSum(b[..k], [last] + b[k + 1..]);
      TotalSum([last], b[k + 1..]);
      TotalSum(b[..k], b[k + 1..]);
    }
  }

  predicate OutputOk(r: Rules, es: seq<Entry>, o: Path)
  {
    && Canonical(r, o)
    && (forall e :: e in es ==> e.path != o)
    && (|o| <= 1 || DirEntry(o[..|o| - 1]) in es)
  }

  // ---------------------------------------------------------------- manifest files

  const MAX_MANIFEST_BYTES := 4194304

  /** Canonical JSON of the manifest with given entries, and the strict parser. */
  datatype ManifestCodec = ManifestCodec(enc: seq<Entry> -> Content, parse: Content -> Option<seq<Entry>>)

  /** Assumption on library behaviour: the parser inverts the encoder. */
  ghost predicate Inverts(c: ManifestCodec) { forall es :: c.parse(c.enc(es)) == Some(es) }

  /** `raw` is the manifest file of the valid entries `es`. */
  ghost predicate IsManifest(r: Rules, c: ManifestCodec, raw: Content, es: seq<Entry>)
  {
    |raw| <= MAX_MANIFEST_BYTES && raw == c.enc(es) && ManifestOk(r, es)
  }

  /** `load_workspace_manifest`: it accepts exactly the canonical bytes of a valid manifest within the size
      limit, and only the file that the suite was reviewed with. */
  method LoadManifest(r: Rules, c: ManifestCodec, raw: Content, expected: Option<Content>)
    returns (es: Option<seq<Entry>>)
    requires Sane(r) && Inverts(c)
    ensures forall m :: es == Some(m) <==> IsManifest(r, c, raw, m) && (expected.Some? ==> raw == expected.value)
  {
    hide ManifestOk, Sane;
    var parsed := c.parse(raw);
    assert forall m :: raw == c.enc(m) ==> parsed == Some(m);
    if |raw| > MAX_MANIFEST_BYTES || (expected.Some? && raw != expected.value) || parsed.None? {
      return None;
    }
    var valid := ValidateManifest(r, parsed.value);
    es := if valid && c.enc(parsed.value) == raw then parsed else None;
  }

  /** The sorted entries of a tree. */
  ghost predicate EntriesOf(nodes: seq<Node>,
      es: seq<Entry>) { Sorted(es) && multiset(es) == multiset(Flatten([], nodes)) }

  lemma OneListing(nodes: seq<Node>, es: seq<Entry>)
    requires EntriesOf(nodes, es)
    ensures forall fs :: EntriesOf(nodes, fs) ==> fs == es
  {
    hide Sorted, Flatten;
    forall fs | EntriesOf(nodes, fs) ensures fs == es {
      SortedIsUnique(es, fs);
    }
  }

  /** `snapshot_workspace`: the bytes of the sorted entries of an acceptable tree, when they fit. */
  method Snapshot(r: Rules, c: ManifestCodec, nodes: seq<Node>) returns (raw: Option<Content>)
    requires WellFormed(nodes)
    ensures raw.Some? ==> Acceptable(r, nodes) && exists es :: EntriesOf(nodes, es)
    ensures forall es :: EntriesOf(nodes, es) && Acceptable(r, nodes) ==>
      raw == if |c.enc(es)| <= MAX_MANIFEST_BYTES then Some(c.enc(es)) else None
  {
    hide Acceptable, Sorted, Flatten, WellFormed;
    var observed := ScanWorkspaceOnce(r, nodes);
    if observed.None? {
      return None;
    }
    assert EntriesOf(nodes, observed.value);
    OneListing(nodes, observed.value);
    var payload := c.enc(observed.value);
    raw := if |payload| <= MAX_MANIFEST_BYTES then Some(payload) else None;
  }

  /** `prepare_workspace_binding`: the file is the reviewed manifest, the tree is exactly the manifest, and
      every declared output is absent with its parent present. */
  method PrepareBinding(r: Rules, c: ManifestCodec, nodes: seq<Node>, raw: Content, expected: Content,
      outputs: seq<Path>)
    returns (baseline: Option<seq<Entry>>)
    requires Sane(r) && Inverts(c) && WellFormed(nodes)
    ensures forall m :: baseline == Some(m) <==>
      && raw == expected && IsManifest(r, c, raw, m) && Acceptable(r, nodes) && EntriesOf(nodes, m)
      && forall o :: o in outputs ==> OutputOk(r, m, o)
  {
    hide Acceptable, Sorted, Flatten, WellFormed, Canonical, Sane, ManifestOk;
    var loaded := LoadManifest(r, c, raw, Some(expected));
    if loaded.None? {
      return None;
    }
    var manifest := loaded.value;
    assert IsManifest(r, c, raw, manifest);
    var observed := ScanWorkspaceOnce(r, nodes);
    if observed.None? {
      return None;
    }
    ManifestIsSorted(r, manifest);
    if EntriesOf(nodes, manifest) {
      SortedIsUnique(manifest, observed.value);
    }
    if observed.value != manifest {
      return None;
    }
    for k := 0 to |outputs|
      invariant forall j :: 0 <= j < k ==> OutputOk(r, manifest, outputs[j])
    {
      if !OutputOk(r, manifest, outputs[k]) {
        assert outputs[k] in outputs;
        return None;
      }
    }
    baseline := Some(manifest);
  }

  lemma ManifestIsSorted(r: Rules, es: seq<Entry>)
    requires ManifestOk(r, es)
    ensures Sorted(es)
  {
    hide Sorted;
  }

  /** Snapshot, load and prepare agree: for an unchanged acceptable tree whose manifest fits, the prepared
      baseline has the entries of the snapshot, whatever order the directories are listed in. */
  method SnapshotThenPrepare(r: Rules, c: ManifestCodec, nodes: seq<Node>, later: seq<Node>, outputs: seq<Path>)
    returns (raw: Option<Content>, baseline: Option<seq<Entry>>)
    requires Sane(r) && Inverts(c) && WellFormed(nodes) && WellFormed(later)
    requires Acceptable(r, later) && multiset(Flatten([], later)) == multiset(Flatten([], nodes))
    ensures raw.Some? ==> Acceptable(r, nodes) && exists es :: EntriesOf(nodes, es)
    ensures forall es :: EntriesOf(nodes, es) && Acceptable(r, nodes) ==>
      && raw == (if |c.enc(es)| <= MAX_MANIFEST_BYTES then Some(c.enc(es)) else None)
      && baseline == if raw.Some? && forall o :: o in outputs ==> OutputOk(r, es, o) then Some(es) else None
    ensures raw.None? ==> baseline.None?
  {
    hide Acceptable, ManifestOk, Flatten, WellFormed, Sorted, OutputOk, Sane, Inverts;
    raw := Snapshot(r, c, nodes);
    baseline := None;
    if raw.Some? {
      ghost var es :| EntriesOf(nodes, es);
      OneListing(nodes, es);
      SnapshotLoads(r, nodes, es);
      baseline := PrepareBinding(r, c, later, raw.value, raw.value, outputs);
      assert IsManifest(r, c, raw.value, es) && EntriesOf(later, es);
      OneReading(r, c, raw.value);
    }
  }

  /** A file is the manifest of at most one list of entries. */
  lemma OneReading(r: Rules, c: ManifestCodec, raw: Content)
    requires Inverts(c)
    ensures forall es, fs :: IsManifest(r, c, raw, es) && IsManifest(r, c, raw, fs) ==> es == fs
  {
    hide ManifestOk;
    forall es, fs | IsManifest(r, c, raw, es) && IsManifest(r, c, raw, fs) ensures es == fs {
      assert c.parse(c.enc(es)) == Some(es) && c.parse(c.enc(fs)) == Some(fs);
    }
  }
}
