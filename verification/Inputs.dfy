/** Choosing and checking the inputs of the next task. */
module Inputs {
  import opened Basics
  import opened Events
  import opened WorkspaceTree
  import opened RunState
  import opened World

  datatype InputCheck = Verified(inputs: map<Path, Content>) | NoProducer(path: Path) | Unfinished(path: Path)
      | Drift(path: Path)

  /** The last task among the first `n` that declares `q` as an output. */
  function Producer(p: Plan, n: nat, q: Path): (r: Option<nat>)
    requires n <= |p.tasks|
    ensures r.Some? ==> r.value < n && q in p.tasks[r.value].outputs
    ensures r.None? ==> forall j :: 0 <= j < n ==> q !in p.tasks[j].outputs
  {
    if n == 0 then None
    else if q in p.tasks[n - 1].outputs then Some(n - 1)
    else Producer(p, n - 1, q)
  }

  /** The identity that the evidence names for an input. */
  function Source(p: Plan, s: State, q: Path): Option<Content>
    requires |s.tasks| == |p.tasks|
  {
    if q in p.seeds then Some(p.seeds[q])
    else match Producer(p, |p.tasks|, q)
      case None => None
      case Some(j) =>
        if s.tasks[j].status == Completed && q in s.tasks[j].outputs then Some(s.tasks[j].outputs[q]) else None
  }

  /** With disjoint outputs, the sealed content of a path is the one its producer verified. */
  lemma {:induction false} SealedLookup(p: Plan, tasks: seq<TaskState>, i: nat, j: nat, q: Path)
    requires PlanOk(p) && TasksOk(p, tasks) && j < i <= |tasks| && q in p.tasks[j].outputs
    ensures tasks[j].status == Completed ==>
      q in Sealed(tasks, i) && q in tasks[j].outputs && Sealed(tasks, i)[q] == tasks[j].outputs[q]
    decreases i
  {
    assert TaskOk(p, j, tasks[j]) && TaskOk(p, i - 1, tasks[i - 1]);
    if j < i - 1 {
      SealedLookup(p, tasks, i - 1, j, q);
    }
  }

  /** The first incomplete task never lacks a completed producer. */
  lemma ProducersComplete(p: Plan, s: State, i: nat, q: Path)
    requires PlanOk(p) && StateOk(p, s) && FirstIncomplete(s, i) && q in p.tasks[i].inputs
    ensures Source(p, s, q).Some? && Source(p, s, q) == ExpectedInput(p, s, i, q)
  {
    hide TaskOk, Sealed;
    if q !in p.seeds {
      assert ProducedBefore(p, i, q);
      var j :| 0 <= j < i && q in p.tasks[j].outputs;
      var k := Producer(p, |p.tasks|, q).value;
      OneProducer(p, j, k, q);
      SealedLookup(p, s.tasks, i, j, q);
    }
  }

  lemma OneProducer(p: Plan, j: nat, k: nat, q: Path)
    requires PlanOk(p) && j < |p.tasks| && k < |p.tasks| && q in p.tasks[j].outputs && q in p.tasks[k].outputs
    ensures j == k
  {
  }

  /** `_expected_inputs` */
  method ExpectedInputs(p: Plan, w: World, i: nat) returns (r: InputCheck)
    requires |w.state.tasks| == |p.tasks| && i < |p.tasks|
    ensures r.Verified? ==>
      && r.inputs.Keys == Elements(p.tasks[i].inputs)
      && forall q :: q in r.inputs ==>
         Source(p, w.state, q) == Some(r.inputs[q]) && q in w.files && w.files[q] == File(r.inputs[q])
    ensures r.NoProducer? || r.Unfinished? ==> r.path in p.tasks[i].inputs && Source(p, w.state, r.path).None?
    ensures r.Drift? ==>
      && r.path in p.tasks[i].inputs && Source(p, w.state, r.path).Some?
      && !(r.path in w.files && w.files[r.path] == File(Source(p, w.state, r.path).value))
  {
    var inputs: map<Path, Content> := map[];
    var names := p.tasks[i].inputs;
    for k := 0 to |names|
      invariant inputs.Keys == Elements(names[..k])
      invariant forall q :: q in inputs ==>
        Source(p, w.state, q) == Some(inputs[q]) && q in w.files && w.files[q] == File(inputs[q])
    {
      var q := names[k];
      assert names[..k + 1] == names[..k] + [q];
      var expected: Content;
      if q in p.seeds {
        expected := p.seeds[q];
      } else {
        var producer := Producer(p, |p.tasks|, q);
        if producer.None? {
          return NoProducer(q);
        }
        var t := w.state.tasks[producer.value];
        if t.status != Completed || q !in t.outputs {
          return Unfinished(q);
        }
        expected := t.outputs[q];
      }
      if !(q in w.files && w.files[q] == File(expected)) {
        return Drift(q);
      }
      inputs := inputs[q := expected];
    }
    assert names[..|names|] == names;
    r := Verified(inputs);
  }

  /** On a valid state, for the first incomplete task, only drifted files can make it refuse. */
  lemma OnlyDriftRefuses(p: Plan, w: World, i: nat)
    requires PlanOk(p) && StateOk(p, w.state) && FirstIncomplete(w.state, i)
    ensures |w.state.tasks| == |p.tasks| && forall q :: q in p.tasks[i].inputs ==> Source(p, w.state, q).Some?
    ensures forall inputs: map<Path, Content> :: InputsMatch(p, w, i, inputs) <==>
      && inputs.Keys == Elements(p.tasks[i].inputs)
      && forall q :: q in inputs ==>
         Source(p, w.state, q) == Some(inputs[q]) && q in w.files && w.files[q] == File(inputs[q])
  {
    hide PlanOk, ExpectedInput, Source, TaskOk;
    forall q | q in p.tasks[i].inputs
        ensures Source(p, w.state, q).Some? && Source(p, w.state, q) == ExpectedInput(p, w.state, i, q) {
      ProducersComplete(p, w.state, i, q);
    }
  }
}
