/** Loading a suite: the one-pass path conflict check and the ordering of seeds and producers. */
module SuitePaths {
  import opened Basics
  import opened RunState
  import opened World

  /** The case-insensitive alias key of a declared path. */
  type Keys = Path -> seq<string>

  /** Two declared paths conflict when the key of one is the key, or an ancestor, of the other. */
  predicate Conflict(key: Keys, p: Path, q: Path)
  {
    p != q && (key(p) <= key(q) || key(q) <= key(p))
  }

  ghost predicate NoConflicts(key: Keys, paths: seq<Path>)
  {
    forall p, q :: p in paths && q in paths ==> !Conflict(key, p, q)
  }

  // ---------------------------------------------------------------- the alias and prefix maps

  /** `aliases` maps the key of every path seen to that path. */
  ghost predicate AliasesOk(key: Keys, seen: seq<Path>, aliases: map<seq<string>, Path>)
  {
    && (forall p :: p in seen ==> key(p) in aliases && aliases[key(p)] == p)
    && (forall k :: k in aliases ==> aliases[k] in seen && key(aliases[k]) == k)
  }

  /** `prefixes` maps every proper ancestor of a path seen to such a path. */
  ghost predicate PrefixesOk(key: Keys, seen: seq<Path>, prefixes: map<seq<string>, Path>)
  {
    && (forall p, d :: p in seen && 1 <= d < |key(p)| ==> key(p)[..d] in prefixes)
    && (forall k :: k in prefixes ==> prefixes[k] in seen && k < key(prefixes[k]) && k != [])
  }

  lemma TakePrefix(k: seq<string>, m: seq<string>)
    ensures k <= m ==> |k| <= |m| && m[..|k|] == k
    ensures k <= m && |k| == |m| ==> k == m
  {
    assert m[..|m|] == m;
  }

  /** A path that passes the three lookups conflicts with nothing seen. */
  lemma LookupsDecide(key: Keys, seen: seq<Path>, aliases: map<seq<string>, Path>, prefixes: map<seq<string>, Path>,
      p: Path)
    requires AliasesOk(key, seen, aliases) && PrefixesOk(key, seen, prefixes) && forall q :: key(q) != []
    ensures (forall q :: q in seen ==> !Conflict(key, p, q)) <==>
      && (key(p) in aliases ==> aliases[key(p)] == p)
      && (key(p) in prefixes ==> prefixes[key(p)] == p)
      && (forall d :: 1 <= d < |key(p)| && key(p)[..d] in aliases ==> aliases[key(p)[..d]] == p)
  {
    var k := key(p);
    if (k in aliases ==> aliases[k] == p) && (k in prefixes ==> prefixes[k] == p)
       && (forall d :: 1 <= d < |k| && k[..d] in aliases ==> aliases[k[..d]] == p)
    {
      assert k !in prefixes;
      forall q | q in seen ensures !Conflict(key, p, q) {
        assert |k| < |key(q)| ==> key(q)[..|k|] in prefixes;
        assert |key(q)| < |k| && k[..|key(q)|] in aliases ==> aliases[k[..|key(q)|]] == p;
        TakePrefix(key(q), k);
        TakePrefix(k, key(q));
      }
    } else {
      if k in aliases && aliases[k] != p {
        assert Conflict(key, p, aliases[k]);
      } else if k in prefixes && prefixes[k] != p {
        assert Conflict(key, p, prefixes[k]);
      } else {
        var d :| 1 <= d < |k| && k[..d] in aliases && aliases[k[..d]] != p;
        assert Conflict(key, p, aliases[k[..d]]);
      }
    }
  }

  method AddPrefixes(key: Keys, p: Path, before: map<seq<string>, Path>) returns (prefixes: map<seq<string>, Path>)
    ensures forall k :: k in before ==> k in prefixes && prefixes[k] == before[k]
    ensures forall d :: 1 <= d < |key(p)| ==> key(p)[..d] in prefixes
    ensures forall k :: k in prefixes ==> k in before || (prefixes[k] == p && k < key(p) && k != [])
  {
    prefixes := before;
    var d := 1;
    while d < |key(p)|
      invariant 1 <= d && forall k :: k in before ==> k in prefixes && prefixes[k] == before[k]
      invariant forall e :: 1 <= e < d && e < |key(p)| ==> key(p)[..e] in prefixes
      invariant forall k :: k in prefixes ==> k in before || (prefixes[k] == p && k < key(p) && k != [])
    {
      var ancestor := key(p)[..d];
      if ancestor !in prefixes {
        prefixes := prefixes[ancestor := p];
      }
      d := d + 1;
    }
  }

  /** The nearest check of one path against all paths seen so far. */
  method PathConflicts(key: Keys, aliases: map<seq<string>, Path>, prefixes: map<seq<string>, Path>, p: Path)
    returns (conflict: bool)
    ensures !conflict <==>
      && (key(p) in aliases ==> aliases[key(p)] == p)
      && (key(p) in prefixes ==> prefixes[key(p)] == p)
      && (forall d :: 1 <= d < |key(p)| && key(p)[..d] in aliases ==> aliases[key(p)[..d]] == p)
  {
    var k := key(p);
    if k in aliases && aliases[k] != p {
      return true;
    }
    if k in prefixes && prefixes[k] != p {
      return true;
    }
    var d := 1;
    while d < |k|
      invariant 1 <= d && forall e :: 1 <= e < d && e < |k| && k[..e] in aliases ==> aliases[k[..e]] == p
    {
      if k[..d] in aliases && aliases[k[..d]] != p {
        return true;
      }
      d := d + 1;
    }
    conflict := false;
  }

  /** One pass over the declared paths accepts exactly the lists without conflicts. */
  method CheckPaths(key: Keys, paths: seq<Path>) returns (ok: bool)
    requires forall q :: key(q) != []
    ensures ok <==> NoConflicts(key, paths)
  {
    var aliases: map<seq<string>, Path> := map[];
    var prefixes: map<seq<string>, Path> := map[];
    for n := 0 to |paths|
      invariant NoConflicts(key, paths[..n])
      invariant AliasesOk(key, paths[..n], aliases) && PrefixesOk(key, paths[..n], prefixes)
    {
      var p := paths[n];
      var seen := paths[..n];
      assert paths[..n + 1] == seen + [p];
      var conflict := PathConflicts(key, aliases, prefixes, p);
      LookupsDecide(key, seen, aliases, prefixes, p);
      if conflict {
        ghost var q :| q in seen && Conflict(key, p, q);
        assert p in paths && q in paths;
        return false;
      }
      aliases := aliases[key(p) := p];
      prefixes := AddPrefixes(key, p, prefixes);
    }
    assert paths[..|paths|] == paths;
    ok := true;
  }

  // ---------------------------------------------------------------- seeds and producers

  /** Inputs of the first `n` tasks that no earlier task produces. */
  ghost function Seeds(tasks: seq<TaskSpec>, n: nat): set<Path>
    requires n <= |tasks|
  {
    if n == 0 then {}
    else Seeds(tasks, n - 1) + (Elements(tasks[n - 1].inputs) - Produced(tasks, n - 1))
  }

  ghost function Produced(tasks: seq<TaskSpec>, n: nat): set<Path>
    requires n <= |tasks|
  {
    if n == 0 then {} else Produced(tasks, n - 1) + Elements(tasks[n - 1].outputs)
  }

  /** The outputs of task `i` are new, distinct, and no seed so far. */
  ghost predicate OutputsFresh(tasks: seq<TaskSpec>, i: nat)
    requires i < |tasks|
  {
    && NoRepeat(tasks[i].outputs)
    && forall q :: q in tasks[i].outputs ==> q !in Produced(tasks, i) && q !in Seeds(tasks, i + 1)
  }

  method RegisterOutputs(outputs: seq<Path>, produced: set<Path>, seeds: set<Path>) returns (ok: bool, all: set<Path>)
    ensures ok <==> NoRepeat(outputs) && forall q :: q in outputs ==> q !in produced && q !in seeds
    ensures ok ==> all == produced + Elements(outputs)
  {
    all := produced;
    for k := 0 to |outputs|
      invariant all == produced + Elements(outputs[..k])
      invariant NoRepeat(outputs[..k]) && forall q :: q in outputs[..k] ==> q !in produced && q !in seeds
    {
      assert outputs[..k + 1] == outputs[..k] + [outputs[k]];
      if outputs[k] in all || outputs[k] in seeds {
        if outputs[k] in outputs[..k] {
          ghost var j :| 0 <= j < k && outputs[j] == outputs[k];
          assert !NoRepeat(outputs);
        }
        return false, {};
      }
      all := all + {outputs[k]};
    }
    assert outputs[..|outputs|] == outputs;
    ok := true;
  }

  method CollectSeeds(inputs: seq<Path>, produced: set<Path>, seeds: set<Path>) returns (all: set<Path>)
    ensures all == seeds + (Elements(inputs) - produced)
  {
    all := seeds;
    for k := 0 to |inputs|
      invariant all == seeds + (Elements(inputs[..k]) - produced)
    {
      assert inputs[..k + 1] == inputs[..k] + [inputs[k]];
      if inputs[k] !in produced && inputs[k] !in all {
        all := all + {inputs[k]};
      }
    }
    assert inputs[..|inputs|] == inputs;
  }

  /** The seed and producer loop: accepted suites have fresh outputs, and the seeds are returned. */
  method CheckProducers(tasks: seq<TaskSpec>) returns (ok: bool, seeds: set<Path>)
    ensures ok <==> forall i :: 0 <= i < |tasks| ==> OutputsFresh(tasks, i)
    ensures ok ==> seeds == Seeds(tasks, |tasks|)
  {
    seeds := {};
    var produced: set<Path> := {};
    for i := 0 to |tasks|
      invariant seeds == Seeds(tasks, i) && produced == Produced(tasks, i)
      invariant forall j :: 0 <= j < i ==> OutputsFresh(tasks, j)
    {
      seeds := CollectSeeds(tasks[i].inputs, produced, seeds);
      ok, produced := RegisterOutputs(tasks[i].outputs, produced, seeds);
      assert ok <==> OutputsFresh(tasks, i);
      if !ok {
        return false, {};
      }
    }
    ok := true;
  }

  lemma {:induction false} ProducedIsEarlier(tasks: seq<TaskSpec>, n: nat, q: Path)
    requires n <= |tasks|
    ensures q in Produced(tasks, n) <==> exists j :: 0 <= j < n && q in tasks[j].outputs
    decreases n
  {
    if n > 0 {
      ProducedIsEarlier(tasks, n - 1, q);
      assert q in tasks[n - 1].outputs ==> exists j :: 0 <= j < n && q in tasks[j].outputs;
    }
  }

  lemma {:induction false} SeedOrigin(tasks: seq<TaskSpec>, n: nat, q: Path)
    requires n <= |tasks|
    ensures q in Seeds(tasks, n) <==> exists j :: 0 <= j < n && q in tasks[j].inputs && q !in Produced(tasks, j)
    decreases n
  {
    if n > 0 {
      SeedOrigin(tasks, n - 1, q);
    }
  }

  /** What acceptance means for the engine: every input is a seed or the output of a strictly earlier task, no
      path has two producers, and no producer overwrites a seed. */
  lemma AcceptedSuite(p: Plan)
    requires forall i :: 0 <= i < |p.tasks| ==> OutputsFresh(p.tasks, i)
    requires p.seeds.Keys == Seeds(p.tasks, |p.tasks|)
    ensures forall i, q :: 0 <= i < |p.tasks| && q in p.tasks[i].inputs ==> q in p.seeds || ProducedBefore(p, i, q)
    ensures forall i, j, q :: 0 <= i < j < |p.tasks| && q in p.tasks[i].outputs ==> q !in p.tasks[j].outputs
    ensures forall i, q :: 0 <= i < |p.tasks| && q in p.tasks[i].outputs ==> q !in p.seeds
  {
    var tasks := p.tasks;
    forall i, q | 0 <= i < |tasks| && q in tasks[i].inputs ensures q in p.seeds || ProducedBefore(p, i, q) {
      ProducedIsEarlier(tasks, i, q);
      SeedOrigin(tasks, |tasks|, q);
    }
    forall i, j, q | 0 <= i < j < |tasks| && q in tasks[i].outputs ensures q !in tasks[j].outputs {
      ProducedIsEarlier(tasks, j, q);
      assert OutputsFresh(tasks, j);
    }
    forall i, q | 0 <= i < |tasks| && q in tasks[i].outputs ensures q !in p.seeds {
      OutputIsNoSeed(tasks, i, q);
    }
  }

  lemma OutputIsNoSeed(tasks: seq<TaskSpec>, i: nat, q: Path)
    requires i < |tasks| && OutputsFresh(tasks, i) && q in tasks[i].outputs
    ensures q !in Seeds(tasks, |tasks|)
  {
    SeedOrigin(tasks, |tasks|, q);
    SeedOrigin(tasks, i + 1, q);
    forall j | 0 <= j < |tasks| && q in tasks[j].inputs ensures q in Produced(tasks, j) {
      ProducedIsEarlier(tasks, j, q);
    }
  }

  /** The separate check that no task uses one path key as input and output refuses nothing more: such a suite
      has a path conflict, a second producer or an overwritten seed. */
  lemma OverlapIsRefused(key: Keys, tasks: seq<TaskSpec>, i: nat, p: Path, q: Path)
    requires i < |tasks| && OutputsFresh(tasks, i) && NoConflicts(key, tasks[i].inputs + tasks[i].outputs)
    requires p in tasks[i].inputs && q in tasks[i].outputs
    ensures key(p) != key(q)
  {
    assert p in tasks[i].inputs + tasks[i].outputs && q in tasks[i].inputs + tasks[i].outputs;
    assert p !in Produced(tasks, i) ==> p in Seeds(tasks, i + 1);
    assert !Conflict(key, p, q);
  }
}
