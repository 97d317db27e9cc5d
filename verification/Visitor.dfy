/** Visiting slices of nodes, with whatever a callback gives, without copying what does not change. */
module Visitor {
  import opened Wrappers

  /** The nodes that take the place of a visited one: none, the children of a syntax list, or the result. */
  function Splice<N>(visited: Option<N>, syntaxList: N -> Option<seq<N>>): seq<N> {
    match visited
    case None => []
    case Some(v) =>
      match syntaxList(v)
      case None => [v]
      case Some(children) => children
  }

  function SpliceAll<N>(nodes: seq<N>, visit: N -> Option<N>, syntaxList: N -> Option<seq<N>>): seq<N> {
    if nodes == [] then []
    else SpliceAll(nodes[..|nodes| - 1], visit, syntaxList) + Splice(visit(nodes[|nodes| - 1]), syntaxList)
  }

  /** The first node that a visit changes. */
  ghost predicate FirstChange<N>(nodes: seq<N>, visit: N -> Option<N>, k: nat) {
    k < |nodes| && visit(nodes[k]) != Some(nodes[k]) && forall i :: 0 <= i < k ==> visit(nodes[i]) == Some(nodes[i])
  }

  lemma SpliceOneMore<N>(nodes: seq<N>, i: nat, visit: N -> Option<N>, syntaxList: N -> Option<seq<N>>)
    requires i < |nodes|
    ensures SpliceAll(nodes[..i + 1], visit, syntaxList) == SpliceAll(nodes[..i], visit, syntaxList) + Splice(visit(nodes[i]), syntaxList)
  {
    assert nodes[..i + 1][..i] == nodes[..i];
  }

  lemma {:induction false} SpliceConcat<N>(a: seq<N>, b: seq<N>, visit: N -> Option<N>, syntaxList: N -> Option<seq<N>>)
    ensures SpliceAll(a + b, visit, syntaxList) == SpliceAll(a, visit, syntaxList) + SpliceAll(b, visit, syntaxList)
  {
    hide Splice;
    if b == [] {
      assert a + b == a;
    } else {
      assert (a + b)[..|a + b| - 1] == a + b[..|b| - 1];
      SpliceConcat(a, b[..|b| - 1], visit, syntaxList);
    }
  }

  /** The slice as it was, up to the first change, and from there on what the visits give; without a change,
      the slice itself. */
  method VisitSlice<N(==)>(nodes: seq<N>, visit: N -> Option<N>, syntaxList: N -> Option<seq<N>>)
    returns (result: seq<N>, changed: bool)
    ensures changed <==> exists i :: 0 <= i < |nodes| && visit(nodes[i]) != Some(nodes[i])
    ensures !changed ==> result == nodes
    ensures forall k: nat :: FirstChange(nodes, visit, k) ==> result == nodes[..k] + SpliceAll(nodes[k..], visit, syntaxList)
  {
    hide Splice, SpliceAll;
    var i: nat := 0;
    while i < |nodes|
      invariant i <= |nodes| && forall j :: 0 <= j < i ==> visit(nodes[j]) == Some(nodes[j])
    {
      var visited := visit(nodes[i]);
      if visited != Some(nodes[i]) {
        result := VisitRest(nodes, i, visit, syntaxList);
        return result, true;
      }
      i := i + 1;
    }
    return nodes, false;
  }

  method VisitRest<N>(nodes: seq<N>, start: nat, visit: N -> Option<N>, syntaxList: N -> Option<seq<N>>)
    returns (updated: seq<N>)
    requires start <= |nodes|
    ensures updated == nodes[..start] + SpliceAll(nodes[start..], visit, syntaxList)
  {
    hide Splice;
    updated := nodes[..start];
    var i := start;
    while i < |nodes|
      invariant start <= i <= |nodes|
      invariant updated == nodes[..start] + SpliceAll(nodes[start..i], visit, syntaxList)
    {
      SpliceOneMore(nodes[start..], i - start, visit, syntaxList);
      assert nodes[start..][..i - start] == nodes[start..i] && nodes[start..][..i - start + 1] == nodes[start..i + 1];
      updated := updated + Splice(visit(nodes[i]), syntaxList);
      i := i + 1;
    }
    assert nodes[start..|nodes|] == nodes[start..];
  }

  lemma {:induction false} UnchangedSplice<N>(nodes: seq<N>, visit: N -> Option<N>, syntaxList: N -> Option<seq<N>>)
    requires forall i :: 0 <= i < |nodes| ==> visit(nodes[i]) == Some(nodes[i]) && syntaxList(nodes[i]) == None
    ensures SpliceAll(nodes, visit, syntaxList) == nodes
  {
    if nodes != [] {
      var front := nodes[..|nodes| - 1];
      assert forall i :: 0 <= i < |front| ==> front[i] == nodes[i];
      UnchangedSplice(front, visit, syntaxList);
    }
  }

  /** Unless a syntax list stands in the slice itself, the result is what the visits give, one after the
      other. */
  method VisitSliceIsConcat<N(==)>(nodes: seq<N>, visit: N -> Option<N>, syntaxList: N -> Option<seq<N>>)
    returns (result: seq<N>, changed: bool)
    requires forall n :: n in nodes ==> syntaxList(n) == None
    ensures result == SpliceAll(nodes, visit, syntaxList)
  {
    hide SpliceAll;
    result, changed := VisitSlice(nodes, visit, syntaxList);
    ghost var k: nat := 0;
    while k < |nodes| && visit(nodes[k]) == Some(nodes[k])
      invariant k <= |nodes| && forall i :: 0 <= i < k ==> visit(nodes[i]) == Some(nodes[i])
    {
      k := k + 1;
    }
    UnchangedSplice(nodes[..k], visit, syntaxList);
    SpliceConcat(nodes[..k], nodes[k..], visit, syntaxList);
    assert nodes == nodes[..k] + nodes[k..];
    if k < |nodes| {
      assert FirstChange(nodes, visit, k);
    } else {
      assert nodes[..k] == nodes;
    }
  }
}
