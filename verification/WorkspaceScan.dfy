/** Observing a workspace: the stack-based scan of a directory tree and the canonical manifest. */
module WorkspaceScan {
  import opened Basics

  const MAX_ENTRIES := 10000
  const MAX_DEPTH := 32
  const MAX_FILE_BYTES := 1073741824
  const MAX_TOTAL_BYTES := 4294967296

  /** A directory entry on disk; `Special` is a link, a device or anything else that is refused. */
  datatype Node =
    | Folder(name: Name, children: seq<Node>)
    | Regular(name: Name, bytes: Content)
    | Special(name: Name)

  datatype Entry = DirEntry(path: Path) | FileEntry(path: Path, bytes: Content)

  /** Library behaviour: which relative paths are portable and in normal form, and their alias keys. */
  datatype Rules = Rules(portable: Path -> bool, key: Path -> seq<string>)

  // ---------------------------------------------------------------- the tree, flattened

  function EntryOf(at: Path, n: Node): Entry
    requires !n.Special?
  {
    if n.Folder? then DirEntry(at + [n.name]) else FileEntry(at + [n.name], n.bytes)
  }

  /** The entries of `nodes` under `at`, all the way down. */
  function Flatten(at: Path, nodes: seq<Node>): seq<Entry>
    decreases nodes
  {
    if nodes == [] then [] else Flatten(at, nodes[..|nodes| - 1]) + FlattenOne(at, nodes[|nodes| - 1])
  }

  function FlattenOne(at: Path, n: Node): seq<Entry>
    decreases n
  {
    match n
    case Folder(name, children) => [DirEntry(at + [name])] + Flatten(at + [name], children)
    case Regular(name, bytes) => [FileEntry(at + [name], bytes)]
    case Special(_) => []
  }

  predicate Ordinary(nodes: seq<Node>)
    decreases nodes
  {
    nodes == [] || (Ordinary(nodes[..|nodes| - 1]) && OrdinaryOne(nodes[|nodes| - 1]))
  }

  predicate OrdinaryOne(n: Node)
    decreases n
  {
    match n case Folder(_, children) => Ordinary(children) case Regular(_, _) => true case Special(_) => false
  }

  function Size(nodes: seq<Node>): nat
    decreases nodes
  {
    if nodes == [] then 0 else Size(nodes[..|nodes| - 1]) + SizeOne(nodes[|nodes| - 1])
  }

  function SizeOne(n: Node): nat
    decreases n
  {
    1 + if n.Folder? then Size(n.children) else 0
  }

  function FileBytes(e: Entry): nat
  {
    if e.FileEntry? then |e.bytes| else 0
  }

  function TotalBytes(es: seq<Entry>): nat
  {
    if es == [] then 0 else TotalBytes(es[..|es| - 1]) + FileBytes(es[|es| - 1])
  }

  // ---------------------------------------------------------------- what may be observed

  predicate Canonical(r: Rules, p: Path) { |p| <= MAX_DEPTH && r.portable(p) }

  predicate EntryOk(r: Rules, e: Entry) { Canonical(r, e.path) && FileBytes(e) <= MAX_FILE_BYTES }

  predicate Aliases(r: Rules, p: Path, q: Path) { p != q && r.key(p) == r.key(q) }

  ghost predicate NoAliases(r: Rules, es: seq<Entry>)
  {
    forall e, f :: e in es && f in es ==> !Aliases(r, e.path, f.path)
  }

  /** A tree that one scan accepts. */
  ghost predicate Acceptable(r: Rules, nodes: seq<Node>)
  {
    var es := Flatten([], nodes);
    && Ordinary(nodes)
    && |es| <= MAX_ENTRIES
    && (forall e :: e in es ==> EntryOk(r, e))
    && NoAliases(r, es)
    && TotalBytes(es) <= MAX_TOTAL_BYTES
  }

  // ---------------------------------------------------------------- the stack of the scan

  datatype Frame = Frame(at: Path, nodes: seq<Node>)

  /** The entries that the directories on the stack still hold. */
  function Pending(stack: seq<Frame>): seq<Entry>
  {
    if stack == [] then [] else Pending(stack[..|stack| - 1]) + Flatten(stack[|stack| - 1].at, stack[|stack| - 1].nodes)
  }

  predicate PendingOrdinary(stack: seq<Frame>)
  {
    stack == [] || (PendingOrdinary(stack[..|stack| - 1]) && Ordinary(stack[|stack| - 1].nodes))
  }

  function StackSize(stack: seq<Frame>): nat
  {
    if stack == [] then 0 else StackSize(stack[..|stack| - 1]) + 1 + Size(stack[|stack| - 1].nodes)
  }

  lemma Push(stack: seq<Frame>, f: Frame)
    ensures Pending(stack + [f]) == Pending(stack) + Flatten(f.at, f.nodes)
    ensures PendingOrdinary(stack + [f]) <==> PendingOrdinary(stack) && Ordinary(f.nodes)
    ensures StackSize(stack + [f]) == StackSize(stack) + 1 + Size(f.nodes)
  {
    assert (stack + [f])[..|stack|] == stack;
  }

  lemma {:induction false} TotalSum(a: seq<Entry>, b: seq<Entry>)
    ensures TotalBytes(a + b) == TotalBytes(a) + TotalBytes(b)
    decreases |b|
  {
    if b == [] {
      assert a + b == a;
    } else {
      TotalSum(a, b[..|b| - 1]);
      assert (a + b)[..|a + b| - 1] == a + b[..|b| - 1];
    }
  }

  lemma {:induction false} FlattenAtLeast(at: Path, nodes: seq<Node>)
    requires Ordinary(nodes)
    ensures |Flatten(at, nodes)| >= |nodes|
    decreases |nodes|
  {
    if nodes != [] {
      FlattenAtLeast(at, nodes[..|nodes| - 1]);
    }
  }

  /** `entries` so far, what the stack holds and what is left of the open directory make up the tree. */
  ghost predicate Splits(nodes: seq<Node>, entries: seq<Entry>, stack: seq<Frame>, at: Path, rest: seq<Node>)
  {
    var all := Flatten([], nodes);
    var parts := entries + Pending(stack) + Flatten(at, rest);
    && multiset(parts) == multiset(all) && |parts| == |all| && TotalBytes(parts) == TotalBytes(all)
    && (Ordinary(nodes) <==> PendingOrdinary(stack) && Ordinary(rest))
  }

  /** The entries so far are fine, and `aliases` indexes them. */
  ghost predicate Sound(r: Rules, entries: seq<Entry>, aliases: map<seq<string>, Path>)
  {
    && (forall e :: e in entries ==> EntryOk(r, e) && r.key(e.path) in aliases && aliases[r.key(e.path)] == e.path)
    && (forall k :: k in aliases ==> exists e :: e in entries && e.path == aliases[k] && r.key(e.path) == k)
  }

  lemma SplitsMembers(nodes: seq<Node>, entries: seq<Entry>, stack: seq<Frame>, at: Path, rest: seq<Node>, e: Entry)
    requires Splits(nodes, entries, stack, at, rest)
    ensures e in Flatten([], nodes) <==> e in entries || e in Pending(stack) || e in Flatten(at, rest)
  {
    var parts := entries + Pending(stack) + Flatten(at, rest);
    assert e in multiset(parts) <==> e in parts;
    assert e in multiset(Flatten([], nodes)) <==> e in Flatten([], nodes);
  }

  lemma SplitsSizes(nodes: seq<Node>, entries: seq<Entry>, stack: seq<Frame>, at: Path, rest: seq<Node>)
    requires Splits(nodes, entries, stack, at, rest)
    ensures |Flatten([], nodes)| == |entries| + |Pending(stack)| + |Flatten(at, rest)|
    ensures TotalBytes(Flatten([], nodes)) ==
        TotalBytes(entries) + TotalBytes(Pending(stack)) + TotalBytes(Flatten(at, rest))
  {
    TotalSum(entries + Pending(stack), Flatten(at, rest));
    TotalSum(entries, Pending(stack));
  }

  lemma Start(nodes: seq<Node>)
    ensures Splits(nodes, [], [Frame([], nodes)], [], [])
  {
    Push([], Frame([], nodes));
    assert [] + [Frame([], nodes)] == [Frame([], nodes)];
    var parts := [] + Pending([Frame([], nodes)]) + Flatten([], []);
    assert parts == Flatten([], nodes);
  }

  lemma OpenTop(nodes: seq<Node>, entries: seq<Entry>, stack: seq<Frame>)
    requires stack != [] && Splits(nodes, entries, stack, [], [])
    ensures var top := stack[|stack| - 1]; Splits(nodes, entries, stack[..|stack| - 1], top.at, top.nodes)
  {
    var top, below := stack[|stack| - 1], stack[..|stack| - 1];
    assert entries + Pending(stack) + Flatten([], []) == entries + Pending(below) + Flatten(top.at, top.nodes);
  }

  lemma CloseDirectory(nodes: seq<Node>, entries: seq<Entry>, stack: seq<Frame>, at: Path)
    requires Splits(nodes, entries, stack, at, [])
    ensures Splits(nodes, entries, stack, [], [])
  {
    assert Flatten(at, []) == Flatten([], []);
  }

  /** The directories that visiting a child opens, and the entries below it. */
  function Opens(stack: seq<Frame>, at: Path, c: Node): seq<Frame>
  {
    if c.Folder? then stack + [Frame(at + [c.name], c.children)] else stack
  }

  function Below(at: Path, c: Node): seq<Entry>
  {
    if c.Folder? then Flatten(at + [c.name], c.children) else []
  }

  lemma VisitParts(stack: seq<Frame>, at: Path, rest: seq<Node>)
    requires rest != [] && !rest[|rest| - 1].Special?
    ensures var c, front := rest[|rest| - 1], rest[..|rest| - 1];
      && Flatten(at, rest) == Flatten(at, front) + ([EntryOf(at, c)] + Below(at, c))
      && Pending(Opens(stack, at, c)) == Pending(stack) + Below(at, c)
      && (PendingOrdinary(stack) && Ordinary(rest) <==> PendingOrdinary(Opens(stack, at, c)) && Ordinary(front))
      && StackSize(Opens(stack, at, c)) + Size(front) + 1 <= StackSize(stack) + Size(rest) + 1
  {
    var c := rest[|rest| - 1];
    if c.Folder? {
      Push(stack, Frame(at + [c.name], c.children));
    } else {
      assert Pending(stack) + [] == Pending(stack);
    }
  }

  lemma Visit(nodes: seq<Node>, entries: seq<Entry>, stack: seq<Frame>, at: Path, rest: seq<Node>)
    requires rest != [] && !rest[|rest| - 1].Special? && Splits(nodes, entries, stack, at, rest)
    ensures var c := rest[|rest| - 1]; Splits(nodes, entries + [EntryOf(at, c)], Opens(stack, at, c), at,
        rest[..|rest| - 1])
  {
    hide Flatten, Pending, Ordinary, PendingOrdinary, TotalBytes, Opens, Below, EntryOf;
    var c := rest[|rest| - 1];
    VisitParts(stack, at, rest);
    Shuffle(entries, Pending(stack), Flatten(at, rest[..|rest| - 1]), EntryOf(at, c), Below(at, c));
  }

  lemma Shuffle(entries: seq<Entry>, pending: seq<Entry>, front: seq<Entry>, e: Entry, below: seq<Entry>)
    ensures var x, y := entries + pending + (front + ([e] + below)), (entries + [e]) + (pending + below) + front;
      multiset(x) == multiset(y) && |x| == |y| && TotalBytes(x) == TotalBytes(y)
  {
    TotalSum(entries + pending, front + ([e] + below));
    TotalSum(entries, pending);
    TotalSum(front, [e] + below);
    TotalSum([e], below);
    TotalSum((entries + [e]) + (pending + below), front);
    TotalSum(entries + [e], pending + below);
    TotalSum(entries, [e]);
    TotalSum(pending, below);
  }

  // ---------------------------------------------------------------- why a refusal is right

  lemma ChildIsEntry(nodes: seq<Node>, entries: seq<Entry>, stack: seq<Frame>, at: Path, rest: seq<Node>)
    requires rest != [] && !rest[|rest| - 1].Special? && Splits(nodes, entries, stack, at, rest)
    ensures EntryOf(at, rest[|rest| - 1]) in Flatten([], nodes)
    ensures |Flatten([], nodes)| >= |entries| + 1
    ensures TotalBytes(Flatten([], nodes)) >= TotalBytes(entries) + FileBytes(EntryOf(at, rest[|rest| - 1]))
  {
    var e := EntryOf(at, rest[|rest| - 1]);
    Visit(nodes, entries, stack, at, rest);
    var stack' := Opens(stack, at, rest[|rest| - 1]);
    SplitsMembers(nodes, entries + [e], stack', at, rest[..|rest| - 1], e);
    SplitsSizes(nodes, entries + [e], stack', at, rest[..|rest| - 1]);
    TotalSum(entries, [e]);
    assert [e][..0] == [];
  }

  lemma AliasRefused(r: Rules, nodes: seq<Node>, entries: seq<Entry>, aliases: map<seq<string>, Path>,
      stack: seq<Frame>, at: Path, rest: seq<Node>)
    requires rest != [] && !rest[|rest| - 1].Special?
    requires Splits(nodes, entries, stack, at, rest) && Sound(r, entries, aliases)
    requires var e := EntryOf(at, rest[|rest| - 1]); r.key(e.path) in aliases && aliases[r.key(e.path)] != e.path
    ensures !NoAliases(r, Flatten([], nodes))
  {
    var e := EntryOf(at, rest[|rest| - 1]);
    ChildIsEntry(nodes, entries, stack, at, rest);
    var f :| f in entries && f.path == aliases[r.key(e.path)] && r.key(f.path) == r.key(e.path);
    SplitsMembers(nodes, entries, stack, at, rest, f);
    assert Aliases(r, e.path, f.path);
  }

  lemma TooMany(nodes: seq<Node>, entries: seq<Entry>, stack: seq<Frame>, at: Path, rest: seq<Node>)
    requires Splits(nodes, entries, stack, at, rest) && |entries| + |rest| > MAX_ENTRIES
    ensures !Ordinary(nodes) || |Flatten([], nodes)| > MAX_ENTRIES
  {
    SplitsSizes(nodes, entries, stack, at, rest);
    if Ordinary(rest) {
      FlattenAtLeast(at, rest);
    }
  }

  lemma SoundMore(r: Rules, entries: seq<Entry>, aliases: map<seq<string>, Path>, e: Entry)
    requires Sound(r, entries, aliases) && EntryOk(r, e)
    requires (r.key(e.path) in aliases ==> aliases[r.key(e.path)] == e.path)
    ensures Sound(r, entries + [e], aliases[r.key(e.path) := e.path])
  {
    var aliases' := aliases[r.key(e.path) := e.path];
    forall k | k in aliases' ensures exists f :: f in entries + [e] && f.path == aliases'[k] && r.key(f.path) == k {
      if k == r.key(e.path) {
        assert e in entries + [e];
      } else {
        var f :| f in entries && f.path == aliases[k] && r.key(f.path) == k;
        assert f in entries + [e];
      }
    }
  }

  lemma SoundHasNoAliases(r: Rules, entries: seq<Entry>, aliases: map<seq<string>, Path>)
    requires Sound(r, entries, aliases)
    ensures NoAliases(r, entries)
  {
  }

  // ---------------------------------------------------------------- the scan

  /** The children of one directory, or None for a refusal. */
  method ScanDirectory(r: Rules, ghost nodes: seq<Node>, entries0: seq<Entry>, aliases0: map<seq<string>, Path>,
      total0: nat, stack0: seq<Frame>, top: Frame)
    returns (ok: bool, entries: seq<Entry>, aliases: map<seq<string>, Path>, total: nat, stack: seq<Frame>)
    requires Splits(nodes, entries0, stack0, top.at, top.nodes) && Sound(r, entries0, aliases0)
    requires total0 == TotalBytes(entries0) <= MAX_TOTAL_BYTES && |entries0| <= MAX_ENTRIES
    ensures !ok ==> !Acceptable(r, nodes)
    ensures ok ==> Splits(nodes, entries, stack, [], []) && Sound(r, entries, aliases)
    ensures ok ==> total == TotalBytes(entries) <= MAX_TOTAL_BYTES && |entries| <= MAX_ENTRIES
    ensures ok ==> StackSize(stack) <= StackSize(stack0) + Size(top.nodes)
  {
    hide Splits, Sound, Flatten, TotalBytes, Ordinary, Pending, NoAliases, StackSize, Size, PendingOrdinary;
    entries, aliases, total, stack := entries0, aliases0, total0, stack0;
    var k := |top.nodes|;
    if |entries| + k > MAX_ENTRIES {
      TooMany(nodes, entries, stack, top.at, top.nodes);
      return false, entries, aliases, total, stack;
    }
    assert top.nodes[..k] == top.nodes;
    while k > 0
      invariant 0 <= k <= |top.nodes| && |entries| + k <= MAX_ENTRIES
      invariant Splits(nodes, entries, stack, top.at, top.nodes[..k]) && Sound(r, entries, aliases)
      invariant total == TotalBytes(entries) <= MAX_TOTAL_BYTES
      invariant StackSize(stack) + Size(top.nodes[..k]) <= StackSize(stack0) + Size(top.nodes)
    {
      var child, rest := top.nodes[k - 1], top.nodes[..k];
      assert rest[|rest| - 1] == child && rest[..k - 1] == top.nodes[..k - 1];
      if child.Special? {
        SpecialRefused(nodes, entries, stack, top.at, rest);
        return false, entries, aliases, total, stack;
      }
      ChildIsEntry(nodes, entries, stack, top.at, rest);
      var e := EntryOf(top.at, child);
      if !Canonical(r, e.path) {
        return false, entries, aliases, total, stack;
      }
      if r.key(e.path) in aliases && aliases[r.key(e.path)] != e.path {
        AliasRefused(r, nodes, entries, aliases, stack, top.at, rest);
        return false, entries, aliases, total, stack;
      }
      if FileBytes(e) > MAX_FILE_BYTES || total + FileBytes(e) > MAX_TOTAL_BYTES {
        return false, entries, aliases, total, stack;
      }
      SoundMore(r, entries, aliases, e);
      Visit(nodes, entries, stack, top.at, rest);
      VisitParts(stack, top.at, rest);
      OneMore(entries, e);
      aliases := aliases[r.key(e.path) := e.path];
      total := total + FileBytes(e);
      entries := entries + [e];
      stack := Opens(stack, top.at, child);
      k := k - 1;
    }
    assert top.nodes[..0] == [];
    CloseDirectory(nodes, entries, stack, top.at);
    ok := true;
  }

  lemma OneMore(entries: seq<Entry>, e: Entry)
    ensures TotalBytes(entries + [e]) == TotalBytes(entries) + FileBytes(e)
  {
    assert (entries + [e])[..|entries|] == entries;
  }

  lemma SpecialRefused(nodes: seq<Node>, entries: seq<Entry>, stack: seq<Frame>, at: Path, rest: seq<Node>)
    requires rest != [] && rest[|rest| - 1].Special? && Splits(nodes, entries, stack, at, rest)
    ensures !Ordinary(nodes)
  {
    assert !OrdinaryOne(rest[|rest| - 1]);
    assert !Ordinary(rest);
  }

  // ---------------------------------------------------------------- canonical order

  const SLASH: Byte := 47

  /** The UTF-8 text of a relative path. */
  function Joined(p: Path): Content
  {
    if p == [] then [] else if |p| == 1 then p[0] else p[0] + [SLASH] + Joined(p[1..])
  }

  /** Byte-wise order of texts. */
  predicate Precedes(a: Content, b: Content)
  {
    b != [] && (a == [] || a[0] < b[0] || (a[0] == b[0] && Precedes(a[1..], b[1..])))
  }

  lemma {:induction false} OrderTotal(a: Content, b: Content)
    ensures a == b || Precedes(a, b) || Precedes(b, a)
    ensures !(Precedes(a, b) && Precedes(b, a)) && !Precedes(a, a)
    decreases |a|
  {
    if a != [] {
      OrderTotal(a[1..], a[1..]);
      if b != [] && a[0] == b[0] {
        OrderTotal(a[1..], b[1..]);
        assert a == [a[0]] + a[1..] && b == [b[0]] + b[1..];
      }
    }
  }

  lemma {:induction false} OrderTransitive(a: Content, b: Content, c: Content)
    requires Precedes(a, b) && Precedes(b, c)
    ensures Precedes(a, c)
    decreases |a|
  {
    if a != [] && a[0] == b[0] && b[0] == c[0] {
      OrderTransitive(a[1..], b[1..], c[1..]);
    }
  }

  predicate Before(e: Entry, f: Entry) { Precedes(Joined(e.path), Joined(f.path)) }

  predicate Sorted(es: seq<Entry>) { forall i, j :: 0 <= i < j < |es| ==> Before(es[i], es[j]) }

  predicate Unique(es: seq<Entry>) { forall i, j :: 0 <= i < j < |es| ==> es[i].path != es[j].path }

  /** Names as a file system allows them. */
  predicate GoodName(n: Name) { n != [] && SLASH !in n }

  predicate GoodPath(p: Path) { p != [] && forall k :: 0 <= k < |p| ==> GoodName(p[k]) }

  lemma HeadAt(p: Path, k: nat)
    requires p != [] && k < |p[0]|
    ensures k < |Joined(p)| && Joined(p)[k] == p[0][k]
  {
  }

  lemma HeadEnd(p: Path)
    requires p != []
    ensures |p| == 1 ==> Joined(p) == p[0]
    ensures |p| > 1 ==>
      |Joined(p)| > |p[0]| && Joined(p)[|p[0]|] == SLASH && Joined(p)[..|p[0]|] == p[0] &&
          Joined(p)[|p[0]| + 1..] == Joined(p[1..])
  {
  }

  lemma HeadNotShorter(p: Path, q: Path)
    requires GoodPath(p) && GoodPath(q) && Joined(p) == Joined(q)
    ensures |p[0]| >= |q[0]|
  {
    HeadEnd(p);
    assert GoodName(q[0]);
    if |p[0]| < |q[0]| {
      HeadAt(q, |p[0]|);
      assert false;
    }
  }

  lemma {:induction false} JoinedInjective(p: Path, q: Path)
    requires GoodPath(p) && GoodPath(q) && Joined(p) == Joined(q)
    ensures p == q
    decreases |p|
  {
    HeadNotShorter(p, q);
    HeadNotShorter(q, p);
    HeadEnd(p);
    HeadEnd(q);
    if |p| > 1 && |q| > 1 {
      JoinedInjective(p[1..], q[1..]);
      assert p == [p[0]] + p[1..] && q == [q[0]] + q[1..];
    }
  }

  // ---------------------------------------------------------------- sorting

  lemma InsertSorted(es: seq<Entry>, e: Entry, k: nat)
    requires Sorted(es) && k <= |es|
    requires forall i :: 0 <= i < k ==> Before(es[i], e)
    requires forall i :: k <= i < |es| ==> Before(e, es[i])
    ensures Sorted(es[..k] + [e] + es[k..]) && multiset(es[..k] + [e] + es[k..]) == multiset(es) + multiset{e}
  {
    assert es == es[..k] + es[k..];
  }

  /** The place of `e` in a sorted list of other entries. */
  method FindPlace(r: seq<Entry>, e: Entry) returns (k: nat)
    requires Sorted(r) && forall f :: f in r ==> Before(f, e) || Before(e, f)
    ensures k <= |r| && (forall i :: 0 <= i < k ==> Before(r[i], e)) && (forall i :: k <= i < |r| ==> Before(e, r[i]))
  {
    hide Joined, Precedes;
    k := 0;
    while k < |r| && Before(r[k], e)
      invariant 0 <= k <= |r| && forall i :: 0 <= i < k ==> Before(r[i], e)
    {
      k := k + 1;
    }
    if k < |r| {
      assert r[k] in r;
      forall i | k < i < |r| ensures Before(e, r[i]) {
        OrderTransitive(Joined(e.path), Joined(r[k].path), Joined(r[i].path));
      }
    }
  }

  /** `sorted` by UTF-8 path. */
  method SortEntries(es: seq<Entry>) returns (r: seq<Entry>)
    requires Unique(es) && forall e :: e in es ==> GoodPath(e.path)
    ensures Sorted(r) && multiset(r) == multiset(es)
  {
    hide Joined, Precedes, GoodPath, Sorted, Unique, Before;
    r := [];
    NothingSorted();
    for n := 0 to |es|
      invariant Sorted(r) && multiset(r) == multiset(es[..n])
    {
      var e := es[n];
      assert es[..n + 1] == es[..n] + [e];
      forall f | f in r ensures Before(f, e) || Before(e, f) {
        assert f in multiset(es[..n]);
        Comparable(es, n, f);
      }
      var k := FindPlace(r, e);
      InsertSorted(r, e, k);
      r := r[..k] + [e] + r[k..];
    }
    assert es[..|es|] == es;
  }

  lemma NothingSorted()
    ensures Sorted([])
  {
  }

  lemma Comparable(es: seq<Entry>, n: nat, f: Entry)
    requires Unique(es) && n < |es| && f in es[..n] && GoodPath(f.path) && GoodPath(es[n].path)
    ensures Before(f, es[n]) || Before(es[n], f)
  {
    OrderTotal(Joined(f.path), Joined(es[n].path));
    if Joined(f.path) == Joined(es[n].path) {
      JoinedInjective(f.path, es[n].path);
    }
  }

  /** There is only one sorted list of given entries. */
  lemma {:induction false} SortedIsUnique(a: seq<Entry>, b: seq<Entry>)
    requires Sorted(a) && Sorted(b) && multiset(a) == multiset(b)
    ensures a == b
    decreases |a|
  {
    hide Joined, Precedes;
    assert |a| == |multiset(a)| == |multiset(b)| == |b|;
    if a != [] {
      SameFirst(a, b);
      assert a == [a[0]] + a[1..] && b == [b[0]] + b[1..];
      assert multiset(a[1..]) == multiset(a) - multiset{a[0]} && multiset(b[1..]) == multiset(b) - multiset{b[0]};
      SortedIsUnique(a[1..], b[1..]);
    }
  }

  lemma FirstBefore(a: seq<Entry>, j: nat)
    requires Sorted(a) && j < |a|
    ensures a[j] == a[0] || Before(a[0], a[j])
  {
  }

  lemma SameFirst(a: seq<Entry>, b: seq<Entry>)
    requires Sorted(a) && Sorted(b) && multiset(a) == multiset(b) && a != [] && b != []
    ensures a[0] == b[0]
  {
    hide Joined, Precedes;
    assert a[0] in multiset(b) && b[0] in multiset(a);
    var i :| 0 <= i < |b| && b[i] == a[0];
    var j :| 0 <= j < |a| && a[j] == b[0];
    OrderTotal(Joined(a[0].path), Joined(b[0].path));
    FirstBefore(b, i);
    FirstBefore(a, j);
  }
}
