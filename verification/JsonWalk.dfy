/** The complexity bound shared by the JSON writer and the JSON reader. */
module JsonWalk {
  const MAX_JSON_DEPTH := 64
  const MAX_JSON_NODES := 100000

  /** A decoded value; an object's keys and values stand in the same order. */
  datatype Json =
    | Scalar
    | Number(finite: bool)
    | List(items: seq<Json>)
    | Object(keys: seq<string>, values: seq<Json>)

  function Children(v: Json): seq<Json>
  {
    if v.List? then v.items else if v.Object? then v.values else []
  }

  // ---------------------------------------------------------------- the recursive measures

  /** Values and object keys, all the way down. */
  function Nodes(v: Json): nat
    decreases v
  {
    1 + match v case Object(_, values) => |values| + NodesOf(values) case List(items) => NodesOf(items) case _ => 0
  }

  function NodesOf(vs: seq<Json>): nat
    decreases vs
  {
    if vs == [] then 0 else NodesOf(vs[..|vs| - 1]) + Nodes(vs[|vs| - 1])
  }

  /** No value sits more than `d` levels below this one. */
  predicate Within(v: Json, d: int)
    decreases v
  {
    0 <= d && match v case Object(_, values) => AllWithin(values, d - 1) case List(items) => AllWithin(items,
        d - 1) case _ => true
  }

  predicate AllWithin(vs: seq<Json>, d: int)
    decreases vs
  {
    vs == [] || (AllWithin(vs[..|vs| - 1], d) && Within(vs[|vs| - 1], d))
  }

  predicate Finite(v: Json)
    decreases v
  {
    match v
    case Number(finite) => finite
    case Object(_, values) => AllFinite(values)
    case List(items) => AllFinite(items)
    case _ => true
  }

  predicate AllFinite(vs: seq<Json>)
    decreases vs
  {
    vs == [] || (AllFinite(vs[..|vs| - 1]) && Finite(vs[|vs| - 1]))
  }

  // ---------------------------------------------------------------- the stack

  datatype Frame = Frame(value: Json, depth: nat)

  function StackNodes(stack: seq<Frame>): nat
  {
    if stack == [] then 0 else StackNodes(stack[..|stack| - 1]) + Nodes(stack[|stack| - 1].value)
  }

  /** Every value on the stack fits under the depth limit and is finite. */
  predicate StackOk(stack: seq<Frame>)
  {
    stack == [] || (StackOk(stack[..|stack| - 1]) &&
        var f := stack[|stack| - 1]; Within(f.value, MAX_JSON_DEPTH - f.depth) && Finite(f.value))
  }

  function Frames(vs: seq<Json>, depth: nat): seq<Frame>
  {
    seq(|vs|, i requires 0 <= i < |vs| => Frame(vs[i], depth))
  }

  lemma {:induction false} PushChildren(stack: seq<Frame>, vs: seq<Json>, depth: nat)
    ensures StackNodes(stack + Frames(vs, depth)) == StackNodes(stack) + NodesOf(vs)
    ensures StackOk(stack + Frames(vs, depth))
       <==> StackOk(stack) && AllWithin(vs, MAX_JSON_DEPTH - depth) && AllFinite(vs)
    decreases |vs|
  {
    var all := stack + Frames(vs, depth);
    if vs == [] {
      assert all == stack;
    } else {
      var front := vs[..|vs| - 1];
      PushChildren(stack, front, depth);
      assert all[..|all| - 1] == stack + Frames(front, depth);
      assert all[|all| - 1] == Frame(vs[|vs| - 1], depth);
    }
  }

  /** The walk terminates and accepts exactly the finite values within both limits. */
  method ValidateJsonComplexity(value: Json) returns (ok: bool)
    ensures ok <==> Finite(value) && Within(value, MAX_JSON_DEPTH) && Nodes(value) <= MAX_JSON_NODES
  {
    var nodes := 0;
    var stack := [Frame(value, 0)];
    assert stack[..0] == [];
    while stack != []
      invariant nodes + StackNodes(stack) == Nodes(value) && nodes <= MAX_JSON_NODES
      invariant StackOk(stack) <==> Finite(value) && Within(value, MAX_JSON_DEPTH)
      decreases StackNodes(stack)
    {
      var current, depth := stack[|stack| - 1].value, stack[|stack| - 1].depth;
      var rest := stack[..|stack| - 1];
      if depth > MAX_JSON_DEPTH {
        return false;
      }
      nodes := nodes + 1;
      if nodes > MAX_JSON_NODES {
        return false;
      }
      PushChildren(rest, Children(current), depth + 1);
      if current.Object? {
        nodes := nodes + |current.values|;
        if nodes > MAX_JSON_NODES {
          return false;
        }
        rest := rest + Frames(current.values, depth + 1);
      } else if current.List? {
        rest := rest + Frames(current.items, depth + 1);
      } else if current.Number? && !current.finite {
        return false;
      } else {
        assert rest + Frames([], depth + 1) == rest;
      }
      stack := rest;
    }
    ok := true;
  }
}
