/** Visiting trees of objects: a node or a list is made anew only if something below it has changed, and
    cloning a tree rests on changing every leaf and every empty list. */
module DeepClone {
  /** A child slot: empty, a node, or a list of nodes. */
  datatype Child = Absent | One(node: Node) | Many(list: NodeList)

  class NodeList {
    const nodes: seq<Node>
    var pos: int
    var end: int

    constructor (nodes: seq<Node>)
      ensures this.nodes == nodes
    {
      this.nodes := nodes;
      pos, end := -1, -1;
    }
  }

  class Node {
    const kind: nat
    const children: seq<Child>
    var flags: nat
    var pos: int
    var end: int
    ghost const height: nat

    constructor (kind: nat, children: seq<Child>, ghost height: nat)
      ensures this.kind == kind && this.children == children && this.height == height
    {
      this.kind, this.children, this.height := kind, children, height;
      flags, pos, end := 0, -1, -1;
    }
  }

  function Members(c: Child): seq<Node> {
    match c
    case Absent => []
    case One(n) => [n]
    case Many(list) => list.nodes
  }

  /** The kind of the nodes that stand for several results of a visit; they are no part of a tree. */
  const SYNTAX_LIST: nat := 0

  ghost predicate ListFits(ms: seq<Node>, height: nat)
    decreases height, 0
  {
    forall i :: 0 <= i < |ms| ==> ms[i].height < height && Fits(ms[i])
  }

  ghost predicate SlotFits(c: Child, height: nat)
    decreases height, 1
  {
    ListFits(Members(c), height)
  }

  /** A finite tree. */
  ghost predicate Fits(n: Node)
    decreases n.height, 2
  {
    n.kind != SYNTAX_LIST && forall i :: 0 <= i < |n.children| ==> SlotFits(n.children[i], n.height)
  }

  /** The same kinds, flags and positions in the same places. */
  ghost predicate Same(a: Node, b: Node)
    requires Fits(a) && Fits(b)
    reads *
    decreases a.height, 2
  {
    && a.kind == b.kind && a.flags == b.flags && a.pos == b.pos && a.end == b.end
    && |a.children| == |b.children|
    && forall i :: 0 <= i < |a.children| ==> SameSlot(a.children[i], a.height, b.children[i], b.height)
  }

  ghost predicate SameSlot(c: Child, height: nat, d: Child, height': nat)
    requires SlotFits(c, height) && SlotFits(d, height')
    reads *
    decreases height, 1
  {
    && (c.One? <==> d.One?) && (c.Many? <==> d.Many?)
    && (c.Many? ==> c.list.pos == d.list.pos && c.list.end == d.list.end)
    && SameList(Members(c), height, Members(d), height')
  }

  ghost predicate SameList(ms: seq<Node>, height: nat, vs: seq<Node>, height': nat)
    requires ListFits(ms, height) && ListFits(vs, height')
    reads *
    decreases height, 0
  {
    |ms| == |vs| && forall i :: 0 <= i < |ms| ==> Same(ms[i], vs[i])
  }

  // ----- what a visit has to change -----

  /** What makes a visitor change a tree: the nodes that its callback clones when none of their children has
      changed, and whether it clones empty lists. */
  datatype Policy = Policy(forced: Node -> bool, emptyLists: bool)

  const IDENTITY := Policy(_ => false, false)
  const CLONE := Policy(_ => true, true)

  /** Whether a visit changes this tree. */
  ghost predicate Touched(p: Policy, n: Node)
    requires Fits(n)
    decreases n.height, 2
  {
    p.forced(n) || exists i :: 0 <= i < |n.children| && SlotTouched(p, n.children[i], n.height)
  }

  ghost predicate SlotTouched(p: Policy, c: Child, height: nat)
    requires SlotFits(c, height)
    decreases height, 1
  {
    (c.Many? && c.list.nodes == [] && p.emptyLists) || AnyTouched(p, Members(c), height)
  }

  ghost predicate AnyTouched(p: Policy, ms: seq<Node>, height: nat)
    requires ListFits(ms, height)
    decreases height, 0
  {
    exists i :: 0 <= i < |ms| && Touched(p, ms[i])
  }

  lemma {:induction false} IdentityTouchesNothing(n: Node)
    requires Fits(n)
    ensures !Touched(IDENTITY, n)
    decreases n.height, 2
  {
    forall i | 0 <= i < |n.children|
      ensures !SlotTouched(IDENTITY, n.children[i], n.height)
    {
      IdentityTouchesNoSlot(n.children[i], n.height);
    }
  }

  lemma {:induction false} IdentityTouchesNoSlot(c: Child, height: nat)
    requires SlotFits(c, height)
    ensures !SlotTouched(IDENTITY, c, height)
    decreases height, 1
  {
    var ms := Members(c);
    forall i | 0 <= i < |ms|
      ensures !Touched(IDENTITY, ms[i])
    {
      IdentityTouchesNothing(ms[i]);
    }
  }

  /** How many nodes of the tree a visit makes anew: those with something to change at or below them. */
  ghost function NewNodes(p: Policy, n: Node): nat
    requires Fits(n)
    decreases n.height, 2
  {
    if Touched(p, n) then 1 + NewNodesOf(p, n, |n.children|) else 0
  }

  ghost function NewNodesOf(p: Policy, n: Node, k: nat): nat
    requires Fits(n) && k <= |n.children|
    decreases n.height, 1, k
  {
    if k == 0 then 0
    else
      assert SlotFits(n.children[k - 1], n.height);
      NewNodesOf(p, n, k - 1) + NewNodesIn(p, Members(n.children[k - 1]), n.height)
  }

  ghost function NewNodesIn(p: Policy, ms: seq<Node>, height: nat): nat
    requires ListFits(ms, height)
    decreases height, 0, |ms|
  {
    if ms == [] then 0
    else NewNodesIn(p, ms[..|ms| - 1], height) + NewNodes(p, ms[|ms| - 1])
  }

  lemma OneMoreIn(p: Policy, ms: seq<Node>, i: nat, height: nat)
    requires ListFits(ms, height) && i < |ms|
    ensures NewNodesIn(p, ms[..i + 1], height) == NewNodesIn(p, ms[..i], height) + NewNodes(p, ms[i])
  {
    assert ms[..i + 1][..i] == ms[..i];
  }

  lemma {:induction false} UntouchedCosts(p: Policy, ms: seq<Node>, height: nat)
    requires ListFits(ms, height) && !AnyTouched(p, ms, height)
    ensures NewNodesIn(p, ms, height) == 0
    decreases |ms|
  {
    if ms != [] {
      var front := ms[..|ms| - 1];
      assert forall i :: 0 <= i < |front| ==> front[i] == ms[i];
      UntouchedCosts(p, front, height);
    }
  }

  lemma {:induction false} UntouchedSlotsCost(p: Policy, n: Node, k: nat)
    requires Fits(n) && k <= |n.children|
    requires forall i :: 0 <= i < k ==> !SlotTouched(p, n.children[i], n.height)
    ensures NewNodesOf(p, n, k) == 0
  {
    if k > 0 {
      UntouchedSlotsCost(p, n, k - 1);
      assert SlotFits(n.children[k - 1], n.height);
      UntouchedCosts(p, Members(n.children[k - 1]), n.height);
    }
  }

  lemma {:induction false} CostInParts(p: Policy, ms: seq<Node>, i: nat, height: nat)
    requires ListFits(ms, height) && i <= |ms|
    ensures NewNodesIn(p, ms, height) == NewNodesIn(p, ms[..i], height) + NewNodesIn(p, ms[i..], height)
    decreases |ms| - i
  {
    hide Fits;
    if i < |ms| {
      var rest := ms[i..];
      CostInParts(p, ms, i + 1, height);
      OneMoreIn(p, ms, i, height);
      CostOfFirst(p, rest, height);
      assert rest[1..] == ms[i + 1..];
    } else {
      assert ms[..i] == ms;
    }
  }

  lemma {:induction false} CostOfFirst(p: Policy, ms: seq<Node>, height: nat)
    requires ListFits(ms, height) && ms != []
    ensures NewNodesIn(p, ms, height) == NewNodes(p, ms[0]) + NewNodesIn(p, ms[1..], height)
    decreases |ms|
  {
    hide Fits, NewNodes;
    if |ms| > 1 {
      var front := ms[..|ms| - 1];
      CostOfFirst(p, front, height);
      assert front[1..] == ms[1..][..|ms| - 2];
    } else {
      assert ms[..0] == [];
    }
  }

  // ----- what a visit makes -----

  /** The objects that have been made, each with the one it was made from. */
  datatype Made = Made(nodes: map<Node, Node>, lists: map<NodeList, NodeList>)

  ghost predicate Within(a: Made, b: Made) {
    && (forall r :: r in a.nodes ==> r in b.nodes && b.nodes[r] == a.nodes[r])
    && (forall r :: r in a.lists ==> r in b.lists && b.lists[r] == a.lists[r])
  }

  function Plus(a: Made, b: Made): Made {
    Made(a.nodes + b.nodes, a.lists + b.lists)
  }

  ghost predicate Apart(a: Made, b: Made) {
    a.nodes.Keys !! b.nodes.Keys && a.lists.Keys !! b.lists.Keys
  }

  lemma PlusSteps(before: Made, a: Made, b: Made)
    requires Apart(before, a) && Apart(Plus(before, a), b)
    ensures Plus(Plus(before, a), b) == Plus(before, Plus(a, b)) && Apart(before, Plus(a, b))
    ensures Within(a, Plus(a, b)) && Within(b, Plus(a, b))
    ensures Plus(a, b).nodes.Keys == a.nodes.Keys + b.nodes.Keys && Plus(a, b).lists.Keys == a.lists.Keys + b.lists.Keys
  {
    assert (before.nodes + a.nodes) + b.nodes == before.nodes + (a.nodes + b.nodes);
    assert (before.lists + a.lists) + b.lists == before.lists + (a.lists + b.lists);
  }


  /** The flags and positions are those of the originals. */
  ghost predicate AreLike(made: Made)
    reads made.nodes.Keys, made.nodes.Values, made.lists.Keys, made.lists.Values
  {
    && (forall r :: r in made.nodes ==>
         r.flags == made.nodes[r].flags && r.pos == made.nodes[r].pos && r.end == made.nodes[r].end)
    && (forall r :: r in made.lists ==> r.pos == made.lists[r].pos && r.end == made.lists[r].end)
  }

  lemma PlusLike(a: Made, b: Made)
    requires AreLike(a) && AreLike(b)
    ensures AreLike(Plus(a, b))
  {
  }

  lemma NothingMade(before: Made)
    ensures Plus(before, NOTHING) == before && Apart(before, NOTHING) && AreLike(NOTHING)
  {
  }

  lemma NodeMade(before: Made, a: Made, r: Node, n: Node)
    requires Apart(before, a) && AreLike(a) && r !in Plus(before, a).nodes
    requires r.flags == n.flags && r.pos == n.pos && r.end == n.end
    ensures var one := Made(map[r := n], map[]);
            && Plus(Plus(before, a), one) == Plus(before, Plus(a, one)) && Apart(before, Plus(a, one))
            && Within(a, Plus(a, one)) && AreLike(Plus(a, one))
            && Plus(a, one).nodes.Keys == a.nodes.Keys + {r} && Plus(a, one).lists.Keys == a.lists.Keys
            && r in Plus(a, one).nodes && Plus(a, one).nodes[r] == n
  {
    hide AreLike, Within;
    var one := Made(map[r := n], map[]);
    assert AreLike(one) by { OneNodeLike(r, n); }
    PlusSteps(before, a, one);
    PlusLike(a, one);
  }

  lemma OneNodeLike(r: Node, n: Node)
    requires r.flags == n.flags && r.pos == n.pos && r.end == n.end
    ensures AreLike(Made(map[r := n], map[]))
  {
  }

  lemma ListMade(before: Made, a: Made, r: NodeList, list: NodeList)
    requires Apart(before, a) && AreLike(a) && r !in Plus(before, a).lists && r.pos == list.pos && r.end == list.end
    ensures var one := Made(map[], map[r := list]);
            && Plus(Plus(before, a), one) == Plus(before, Plus(a, one)) && Apart(before, Plus(a, one))
            && Within(a, Plus(a, one)) && AreLike(Plus(a, one))
            && Plus(a, one).nodes.Keys == a.nodes.Keys && Plus(a, one).lists.Keys == a.lists.Keys + {r}
            && r in Plus(a, one).lists && Plus(a, one).lists[r] == list
  {
    hide AreLike, Within;
    var one := Made(map[], map[r := list]);
    assert AreLike(one) by { OneListLike(r, list); }
    PlusSteps(before, a, one);
    PlusLike(a, one);
  }

  lemma OneListLike(r: NodeList, list: NodeList)
    requires r.pos == list.pos && r.end == list.end
    ensures AreLike(Made(map[], map[r := list]))
  {
  }

  const NOTHING := Made(map[], map[])

  /** What the visit of `n` gives: `n` itself if there is nothing to change, and otherwise a node made from
      it whose slots have been visited. */
  ghost predicate Visited(p: Policy, n: Node, r: Node, made: Made)
    requires Fits(n)
    decreases n.height, 2
  {
    if !Touched(p, n) then r == n
    else
      && r in made.nodes && made.nodes[r] == n && r.kind == n.kind && r.height == n.height
      && |r.children| == |n.children|
      && forall i :: 0 <= i < |n.children| ==> VisitedSlot(p, n.children[i], r.children[i], n.height, made)
  }

  ghost predicate VisitedSlot(p: Policy, c: Child, d: Child, height: nat, made: Made)
    requires SlotFits(c, height)
    decreases height, 1
  {
    if !SlotTouched(p, c, height) then d == c
    else
      && (c.One? <==> d.One?) && (c.Many? <==> d.Many?)
      && (c.Many? ==> d.list in made.lists && made.lists[d.list] == c.list)
      && VisitedList(p, Members(c), Members(d), height, made)
  }

  ghost predicate VisitedList(p: Policy, ms: seq<Node>, vs: seq<Node>, height: nat, made: Made)
    requires ListFits(ms, height)
    decreases height, 0
  {
    |vs| == |ms| && forall i :: 0 <= i < |ms| ==> Visited(p, ms[i], vs[i], made)
  }

  lemma UntouchedVisited(p: Policy, n: Node, made: Made)
    requires Fits(n) && !Touched(p, n)
    ensures Visited(p, n, n, made)
  {
  }

  /** More may have been made since. */
  lemma {:induction false} VisitedLater(p: Policy, n: Node, r: Node, a: Made, b: Made)
    requires Fits(n) && Visited(p, n, r, a) && Within(a, b)
    ensures Visited(p, n, r, b)
    decreases n.height, 2
  {
    if Touched(p, n) {
      forall i | 0 <= i < |n.children|
        ensures VisitedSlot(p, n.children[i], r.children[i], n.height, b)
      {
        SlotLater(p, n.children[i], r.children[i], n.height, a, b);
      }
    }
  }

  lemma {:induction false} SlotLater(p: Policy, c: Child, d: Child, height: nat, a: Made, b: Made)
    requires SlotFits(c, height) && VisitedSlot(p, c, d, height, a) && Within(a, b)
    ensures VisitedSlot(p, c, d, height, b)
    decreases height, 1
  {
    if SlotTouched(p, c, height) {
      ListLater(p, Members(c), Members(d), height, a, b);
    }
  }

  lemma {:induction false} ListLater(p: Policy, ms: seq<Node>, vs: seq<Node>, height: nat, a: Made, b: Made)
    requires ListFits(ms, height) && VisitedList(p, ms, vs, height, a) && Within(a, b)
    ensures VisitedList(p, ms, vs, height, b)
    decreases height, 0
  {
    forall i | 0 <= i < |ms|
      ensures Visited(p, ms[i], vs[i], b)
    {
      VisitedLater(p, ms[i], vs[i], a, b);
    }
  }

  /** The result of a visit is a tree again, and says the same as the original, whatever was made anew. */
  lemma {:induction false} VisitedSame(p: Policy, n: Node, r: Node, made: Made)
    requires Fits(n) && Visited(p, n, r, made) && AreLike(made)
    ensures Fits(r) && r.height == n.height && Same(n, r)
    decreases n.height, 2
  {
    if Touched(p, n) {
      forall i | 0 <= i < |n.children|
        ensures SlotFits(r.children[i], n.height) && SameSlot(n.children[i], n.height, r.children[i], n.height)
      {
        VisitedSlotSame(p, n.children[i], r.children[i], n.height, made);
      }
    } else {
      SameAsItself(n);
    }
  }

  lemma {:induction false} VisitedSlotSame(p: Policy, c: Child, d: Child, height: nat, made: Made)
    requires SlotFits(c, height) && VisitedSlot(p, c, d, height, made) && AreLike(made)
    ensures SlotFits(d, height) && SameSlot(c, height, d, height)
    decreases height, 1
  {
    if SlotTouched(p, c, height) {
      var ms, vs := Members(c), Members(d);
      forall i | 0 <= i < |ms|
        ensures vs[i].height == ms[i].height && Fits(vs[i]) && Same(ms[i], vs[i])
      {
        VisitedSame(p, ms[i], vs[i], made);
      }
      assert ListFits(vs, height) && SameList(ms, height, vs, height);
    } else {
      SlotSameAsItself(c, height);
    }
  }

  lemma {:induction false} SameAsItself(n: Node)
    requires Fits(n)
    ensures Same(n, n)
    decreases n.height, 2
  {
    forall i | 0 <= i < |n.children|
      ensures SameSlot(n.children[i], n.height, n.children[i], n.height)
    {
      SlotSameAsItself(n.children[i], n.height);
    }
  }

  lemma {:induction false} SlotSameAsItself(c: Child, height: nat)
    requires SlotFits(c, height)
    ensures SameSlot(c, height, c, height)
    decreases height, 1
  {
    var ms := Members(c);
    forall i | 0 <= i < |ms|
      ensures Same(ms[i], ms[i])
    {
      SameAsItself(ms[i]);
    }
    assert SameList(ms, height, ms, height);
  }

  /** Every node and every list of the tree has been made. */
  ghost predicate AllMade(n: Node, made: Made)
    requires Fits(n)
    decreases n.height, 2
  {
    n in made.nodes && forall i :: 0 <= i < |n.children| ==> SlotMade(n.children[i], n.height, made)
  }

  ghost predicate SlotMade(c: Child, height: nat, made: Made)
    requires SlotFits(c, height)
    decreases height, 1
  {
    (c.Many? ==> c.list in made.lists) && MembersMade(Members(c), height, made)
  }

  ghost predicate MembersMade(ms: seq<Node>, height: nat, made: Made)
    requires ListFits(ms, height)
    decreases height, 0
  {
    forall i :: 0 <= i < |ms| ==> AllMade(ms[i], made)
  }

  /** When every node and every empty list is cloned, everything has been made anew: the change of a leaf
      reaches all the nodes and lists above it. */
  lemma {:induction false} CloneIsNew(n: Node, r: Node, made: Made)
    requires Fits(n) && Fits(r) && Visited(CLONE, n, r, made)
    ensures AllMade(r, made)
    decreases n.height, 2
  {
    assert Touched(CLONE, n);
    forall i | 0 <= i < |r.children|
      ensures SlotMade(r.children[i], r.height, made)
    {
      CloneSlotIsNew(n.children[i], r.children[i], n.height, made);
    }
  }

  lemma {:induction false} CloneSlotIsNew(c: Child, d: Child, height: nat, made: Made)
    requires SlotFits(c, height) && SlotFits(d, height) && VisitedSlot(CLONE, c, d, height, made)
    ensures SlotMade(d, height, made)
    decreases height, 1
  {
    if !c.Absent? {
      assert SlotTouched(CLONE, c, height) by { CloneTouches(c, height); }
    }
    var ms, vs := Members(c), Members(d);
    forall i | 0 <= i < |vs|
      ensures AllMade(vs[i], made)
    {
      CloneIsNew(ms[i], vs[i], made);
    }
    assert MembersMade(vs, height, made);
  }

  lemma CloneTouches(c: Child, height: nat)
    requires SlotFits(c, height) && !c.Absent?
    ensures SlotTouched(CLONE, c, height)
  {
    var ms := Members(c);
    if ms != [] {
      assert Touched(CLONE, ms[0]);
      assert AnyTouched(CLONE, ms, height);
    }
  }

  // ----- factories -----

  class NodeFactory {
    var nodeCount: nat
    ghost var made: Made

    ghost predicate Valid()
      reads this
    {
      nodeCount == |made.nodes|
    }

    constructor ()
      ensures Valid() && made == NOTHING && nodeCount == 0
    {
      nodeCount, made := 0, NOTHING;
    }

    method NewNode(kind: nat, children: seq<Child>, ghost original: Node) returns (r: Node)
      requires Valid()
      modifies this
      ensures Valid() && fresh(r) && r !in old(made).nodes && nodeCount == old(nodeCount) + 1
      ensures made == Plus(old(made), Made(map[r := original], map[]))
      ensures r.kind == kind && r.children == children && r.height == original.height
    {
      nodeCount := nodeCount + 1;
      r := new Node(kind, children, original.height);
      made := Plus(made, Made(map[r := original], map[]));
    }

    method NewNodeList(nodes: seq<Node>, ghost original: NodeList) returns (r: NodeList)
      requires Valid()
      modifies this
      ensures Valid() && fresh(r) && r !in old(made).lists && r.nodes == nodes && nodeCount == old(nodeCount)
      ensures made == Plus(old(made), Made(map[], map[r := original]))
    {
      r := new NodeList(nodes);
      made := Plus(made, Made(map[], map[r := original]));
    }

    /** A new list with the position of the original. */
    method ListLike(original: NodeList, nodes: seq<Node>) returns (r: NodeList)
      requires Valid()
      modifies this
      ensures Valid() && fresh(r) && r !in old(made).lists && r.nodes == nodes && nodeCount == old(nodeCount)
      ensures made == Plus(old(made), Made(map[], map[r := original])) && r.pos == original.pos && r.end == original.end
    {
      r := NewNodeList(nodes, original);
      r.pos, r.end := original.pos, original.end;
    }

    /** A new node with the kind, flags and position of the original. */
    method NodeLike(original: Node, children: seq<Child>) returns (r: Node)
      requires Valid()
      modifies this
      ensures Valid() && fresh(r) && r !in old(made).nodes && nodeCount == old(nodeCount) + 1
      ensures made == Plus(old(made), Made(map[r := original], map[]))
      ensures r.kind == original.kind && r.children == children && r.height == original.height
      ensures r.flags == original.flags && r.pos == original.pos && r.end == original.end
    {
      r := NewNode(original.kind, children, original);
      r.flags, r.pos, r.end := original.flags, original.pos, original.end;
    }

    /** A new node only if some child is another object than before. */
    method UpdateNode(original: Node, children: seq<Child>) returns (r: Node)
      requires Valid()
      modifies this
      ensures Valid()
      ensures children == original.children ==> r == original && nodeCount == old(nodeCount) && made == old(made)
      ensures children != original.children ==>
                && fresh(r) && r !in old(made).nodes && nodeCount == old(nodeCount) + 1
                && made == Plus(old(made), Made(map[r := original], map[]))
                && r.kind == original.kind && r.children == children && r.height == original.height
                && r.flags == original.flags && r.pos == original.pos && r.end == original.end
    {
      if children == original.children {
        return original;
      }
      r := NodeLike(original, children);
    }

    /** The same tree in objects of its own; no object that was there before is written to. */
    method DeepCloneNode(n: Node) returns (c: Node, ghost added: Made)
      requires Valid() && Fits(n)
      modifies this
      ensures Valid() && fresh(added.nodes.Keys) && fresh(added.lists.Keys)
      ensures Fits(c) && AllMade(c, added) && Same(n, c)
      ensures nodeCount == old(nodeCount) + NewNodes(CLONE, n)
    {
      var visitor := new NodeVisitor(this, CLONE);
      c, added := visitor.Visit(n);
      VisitedSame(CLONE, n, c, added);
      CloneIsNew(n, c, added);
    }

    /** A visitor that changes nothing gives back the tree it was given and makes nothing. */
    method IdentityVisit(n: Node) returns (r: Node)
      requires Valid() && Fits(n)
      modifies this
      ensures r == n && made == old(made) && nodeCount == old(nodeCount)
    {
      hide NodeVisitor.Grown, Visited, Touched, NewNodes, AreLike, Fits;
      var visitor := new NodeVisitor(this, IDENTITY);
      ghost var added;
      r, added := visitor.Visit(n);
      IdentityTouchesNothing(n);
    }
  }

  // ----- visitors -----

  lemma MemberFits(ms: seq<Node>, i: nat, height: nat)
    requires ListFits(ms, height) && i < |ms|
    ensures ms[i].height < height && Fits(ms[i])
    ensures ListFits(ms[..i], height) && ListFits(ms[..i + 1], height) && ListFits(ms[i + 1..], height)
  {
    hide Fits;
  }

  lemma NothingVisited(p: Policy, ms: seq<Node>, height: nat)
    requires ListFits(ms, height)
    ensures ListFits(ms[..0], height) && !AnyTouched(p, ms[..0], height)
    ensures VisitedList(p, ms[..0], [], height, NOTHING) && NewNodesIn(p, ms[..0], height) == 0
  {
  }

  lemma OneMoreUntouched(p: Policy, ms: seq<Node>, i: nat, height: nat)
    requires ListFits(ms, height) && i < |ms| && ListFits(ms[..i], height) && ListFits(ms[..i + 1], height)
    requires Fits(ms[i])
    ensures AnyTouched(p, ms[..i + 1], height) <==> AnyTouched(p, ms[..i], height) || Touched(p, ms[i])
    ensures AnyTouched(p, ms[..i + 1], height) ==> AnyTouched(p, ms, height)
  {
    hide Fits, Touched;
    var before, after := ms[..i], ms[..i + 1];
    assert after[i] == ms[i] && forall j :: 0 <= j < i ==> before[j] == ms[j] && after[j] == ms[j];
    if AnyTouched(p, after, height) {
      var j :| 0 <= j < |after| && Touched(p, after[j]);
      assert ms[j] == after[j] && (j < i ==> before[j] == ms[j]);
    }
    if AnyTouched(p, before, height) {
      var j :| 0 <= j < |before| && Touched(p, before[j]);
      assert after[j] == before[j];
    }
  }

  lemma NoneTouched(p: Policy, ms: seq<Node>, height: nat)
    requires ListFits(ms, height) && !AnyTouched(p, ms, height)
    ensures VisitedList(p, ms, ms, height, NOTHING) && NewNodesIn(p, ms, height) == 0
  {
    hide Fits, Touched;
    UntouchedCosts(p, ms, height);
  }

  /** The slice from its parts: unchanged nodes, the first change, and what was visited after it. */
  lemma ChangedSlice(p: Policy, ms: seq<Node>, i: nat, v: Node, rest: seq<Node>, height: nat, a: Made, b: Made,
                     all: Made)
    requires ListFits(ms, height) && i < |ms| && ListFits(ms[..i], height) && !AnyTouched(p, ms[..i], height)
    requires Fits(ms[i]) && Visited(p, ms[i], v, a) && Within(a, all) && Within(b, all)
    requires ListFits(ms[i + 1..], height) && VisitedList(p, ms[i + 1..], rest, height, b)
    ensures VisitedList(p, ms, ms[..i] + [v] + rest, height, all)
    ensures NewNodesIn(p, ms, height) == NewNodes(p, ms[i]) + NewNodesIn(p, ms[i + 1..], height)
  {
    hide Fits, Touched, Visited, NewNodes, NewNodesIn;
    var result := ms[..i] + [v] + rest;
    VisitedLater(p, ms[i], v, a, all);
    ListLater(p, ms[i + 1..], rest, height, b, all);
    forall j | 0 <= j < |ms|
      ensures |result| == |ms| && Visited(p, ms[j], result[j], all)
    {
      if j > i {
        assert ms[i + 1..][j - i - 1] == ms[j] && result[j] == rest[j - i - 1];
      } else if j < i {
        assert result[j] == ms[j] && ms[..i][j] == ms[j];
        UntouchedVisited(p, ms[j], all);
      }
    }
    CostInParts(p, ms, i, height);
    CostOfFirst(p, ms[i..], height);
    assert ms[i..][1..] == ms[i + 1..];
    UntouchedCosts(p, ms[..i], height);
  }

  lemma OneMoreVisited(p: Policy, ms: seq<Node>, i: nat, result: seq<Node>, v: Node, height: nat, a: Made, b: Made,
                       all: Made)
    requires ListFits(ms, height) && i < |ms| && ListFits(ms[..i], height) && VisitedList(p, ms[..i], result, height, a)
    requires Fits(ms[i]) && Visited(p, ms[i], v, b) && Within(a, all) && Within(b, all) && ListFits(ms[..i + 1], height)
    ensures VisitedList(p, ms[..i + 1], result + [v], height, all)
    ensures NewNodesIn(p, ms[..i + 1], height) == NewNodesIn(p, ms[..i], height) + NewNodes(p, ms[i])
  {
    hide Fits, Visited, NewNodes, NewNodesIn;
    ListLater(p, ms[..i], result, height, a, all);
    VisitedLater(p, ms[i], v, b, all);
    OneMoreIn(p, ms, i, height);
    forall j | 0 <= j < i + 1
      ensures Visited(p, ms[..i + 1][j], (result + [v])[j], all)
    {
      if j < i {
        assert ms[..i][j] == ms[j];
      }
    }
  }

  /** The slots of `n` visited so far. */
  ghost predicate VisitedSlots(p: Policy, n: Node, slots: seq<Child>, made: Made)
    requires Fits(n) && |slots| <= |n.children|
  {
    forall i :: 0 <= i < |slots| ==> VisitedSlot(p, n.children[i], slots[i], n.height, made)
  }

  lemma OneMoreSlot(p: Policy, n: Node, slots: seq<Child>, d: Child, a: Made, b: Made, all: Made)
    requires Fits(n) && |slots| < |n.children| && VisitedSlots(p, n, slots, a)
    requires SlotFits(n.children[|slots|], n.height)
    requires VisitedSlot(p, n.children[|slots|], d, n.height, b) && Within(a, all) && Within(b, all)
    ensures VisitedSlots(p, n, slots + [d], all)
  {
    hide SlotFits, VisitedSlot;
    forall i | 0 <= i < |slots| + 1
      ensures VisitedSlot(p, n.children[i], (slots + [d])[i], n.height, all)
    {
      if i < |slots| {
        SlotLater(p, n.children[i], slots[i], n.height, a, all);
      } else {
        SlotLater(p, n.children[i], d, n.height, b, all);
      }
    }
  }

  ghost predicate SlotsTouched(p: Policy, n: Node, k: nat)
    requires Fits(n) && k <= |n.children|
  {
    exists i :: 0 <= i < k && SlotTouched(p, n.children[i], n.height)
  }

  /** Nothing that was made is part of the old tree. */
  ghost predicate Elsewhere(n: Node, made: Made) {
    && (forall i :: 0 <= i < |n.children| && n.children[i].One? ==> n.children[i].node !in made.nodes)
    && (forall i :: 0 <= i < |n.children| && n.children[i].Many? ==> n.children[i].list !in made.lists)
  }

  /** The slots hold the same objects exactly if nothing in them was to be changed. */
  lemma SameSlotsUntouched(p: Policy, n: Node, slots: seq<Child>, made: Made)
    requires Fits(n) && |slots| == |n.children| && VisitedSlots(p, n, slots, made) && Elsewhere(n, made)
    ensures slots == n.children <==> !SlotsTouched(p, n, |n.children|)
  {
    hide SlotFits, SlotTouched, VisitedSlot;
    forall i | 0 <= i < |slots|
      ensures slots[i] == n.children[i] <==> !SlotTouched(p, n.children[i], n.height)
    {
      TouchedSlotDiffers(p, n.children[i], slots[i], n.height, made);
    }
  }

  lemma TouchedSlotDiffers(p: Policy, c: Child, d: Child, height: nat, made: Made)
    requires SlotFits(c, height) && VisitedSlot(p, c, d, height, made)
    requires (c.One? ==> c.node !in made.nodes) && (c.Many? ==> c.list !in made.lists)
    ensures d == c <==> !SlotTouched(p, c, height)
  {
    if c.One? && SlotTouched(p, c, height) {
      var ms := Members(c);
      assert AnyTouched(p, ms, height);
      var i :| 0 <= i < |ms| && Touched(p, ms[i]);
      assert Visited(p, ms[0], Members(d)[0], made);
    }
  }

  lemma UpdatedVisited(p: Policy, n: Node, slots: seq<Child>, r: Node, made: Made, all: Made)
    requires Fits(n) && |slots| == |n.children| && VisitedSlots(p, n, slots, made) && SlotsTouched(p, n, |n.children|)
    requires r.kind == n.kind && r.children == slots && r.height == n.height
    requires Within(made, all) && r in all.nodes && all.nodes[r] == n
    ensures Visited(p, n, r, all) && Touched(p, n)
  {
    hide SlotFits, VisitedSlot, SlotTouched;
    forall i | 0 <= i < |slots|
      ensures VisitedSlot(p, n.children[i], slots[i], n.height, all)
    {
      SlotLater(p, n.children[i], slots[i], n.height, made, all);
    }
  }

  lemma CloneVisited(p: Policy, n: Node, r: Node, made: Made)
    requires Fits(n) && p.forced(n) && !SlotsTouched(p, n, |n.children|)
    requires r.kind == n.kind && r.children == n.children && r.height == n.height && r in made.nodes
    requires made.nodes[r] == n
    ensures Visited(p, n, r, made) && Touched(p, n) && NewNodes(p, n) == 1
  {
    hide SlotFits, SlotTouched;
    UntouchedSlotsCost(p, n, |n.children|);
    forall i | 0 <= i < |n.children|
      ensures VisitedSlot(p, n.children[i], n.children[i], n.height, made)
    {
      SlotUntouched(p, n, i, made);
    }
  }

  lemma SlotUntouched(p: Policy, n: Node, i: nat, made: Made)
    requires Fits(n) && i < |n.children| && SlotFits(n.children[i], n.height)
    requires !SlotTouched(p, n.children[i], n.height)
    ensures VisitedSlot(p, n.children[i], n.children[i], n.height, made)
  {
  }

  /** A visitor whose callback visits the children and clones what `policy` says if none has changed. */
  class NodeVisitor {
    const factory: NodeFactory
    const policy: Policy

    constructor (factory: NodeFactory, policy: Policy)
      ensures this.factory == factory && this.policy == policy
    {
      this.factory, this.policy := factory, policy;
    }

    /** This, and nothing else, has been made since `before`. */
    ghost predicate Grown(before: Made, added: Made)
      reads factory
    {
      factory.Valid() && factory.made == Plus(before, added) && Apart(before, added)
    }

    /** The nodes themselves, as long as no visit gives another node; from there on what the visits give. */
    method VisitSlice(ms: seq<Node>, ghost height: nat) returns (result: seq<Node>, changed: bool, ghost added: Made)
      requires factory.Valid() && ListFits(ms, height)
      modifies factory
      ensures Grown(old(factory.made), added) && AreLike(added) && fresh(added.nodes.Keys) && fresh(added.lists.Keys)
      ensures changed <==> AnyTouched(policy, ms, height)
      ensures !changed ==> result == ms && added == NOTHING
      ensures VisitedList(policy, ms, result, height, added)
      ensures factory.nodeCount == old(factory.nodeCount) + NewNodesIn(policy, ms, height)
      decreases height, 0, 1
    {
      hide Within, Plus, Apart, AreLike, NodeFactory.Valid, Fits, ListFits, SlotFits, Touched, AnyTouched, SlotTouched,
           Visited, VisitedList, VisitedSlot, NewNodes, NewNodesIn;
      var i := 0;
      NothingVisited(policy, ms, height);
      while i < |ms|
        invariant 0 <= i <= |ms| && factory.Valid()
        invariant factory.nodeCount == old(factory.nodeCount) && factory.made == old(factory.made)
        invariant ListFits(ms[..i], height) && !AnyTouched(policy, ms[..i], height)
      {
        MemberFits(ms, i, height);
        OneMoreUntouched(policy, ms, i, height);
        var visited, first := Visit(ms[i]);
        if visited != ms[i] {
          var rest, more := VisitAll(ms[i + 1..], height);
          PlusSteps(old(factory.made), first, more);
          PlusLike(first, more);
          ChangedSlice(policy, ms, i, visited, rest, height, first, more, Plus(first, more));
          return ms[..i] + [visited] + rest, true, Plus(first, more);
        }
        i := i + 1;
      }
      assert ms[..i] == ms;
      NoneTouched(policy, ms, height);
      NothingMade(factory.made);
      return ms, false, NOTHING;
    }

    method VisitAll(ms: seq<Node>, ghost height: nat) returns (result: seq<Node>, ghost added: Made)
      requires factory.Valid() && ListFits(ms, height)
      modifies factory
      ensures Grown(old(factory.made), added) && AreLike(added) && fresh(added.nodes.Keys) && fresh(added.lists.Keys)
      ensures VisitedList(policy, ms, result, height, added)
      ensures factory.nodeCount == old(factory.nodeCount) + NewNodesIn(policy, ms, height)
      decreases height, 0, 0
    {
      hide Within, Plus, Apart, AreLike, NodeFactory.Valid, Fits, ListFits, SlotFits, Touched, AnyTouched, SlotTouched,
           Visited, VisitedList, VisitedSlot, NewNodes, NewNodesIn;
      result, added := [], NOTHING;
      NothingMade(factory.made);
      var i := 0;
      NothingVisited(policy, ms, height);
      while i < |ms|
        invariant 0 <= i <= |ms|
        invariant Grown(old(factory.made), added) && AreLike(added) && fresh(added.nodes.Keys) && fresh(added.lists.Keys)
        invariant ListFits(ms[..i], height) && VisitedList(policy, ms[..i], result, height, added)
        invariant factory.nodeCount == old(factory.nodeCount) + NewNodesIn(policy, ms[..i], height)
      {
        MemberFits(ms, i, height);
        var visited, more := Visit(ms[i]);
        PlusSteps(old(factory.made), added, more);
        PlusLike(added, more);
        OneMoreVisited(policy, ms, i, result, visited, height, added, more, Plus(added, more));
        result, added := result + [visited], Plus(added, more);
        i := i + 1;
      }
      assert ms[..i] == ms;
    }

    /** A new list only for another slice, or, if the visitor says so, for an empty one. */
    method VisitNodes(list: NodeList, ghost height: nat) returns (r: NodeList, ghost added: Made)
      requires factory.Valid() && SlotFits(Many(list), height) && ListFits(list.nodes, height)
      modifies factory
      ensures Grown(old(factory.made), added) && AreLike(added) && fresh(added.nodes.Keys) && fresh(added.lists.Keys)
      ensures r == list <==> !SlotTouched(policy, Many(list), height)
      ensures r == list ==> added == NOTHING
      ensures VisitedSlot(policy, Many(list), Many(r), height, added)
      ensures factory.nodeCount == old(factory.nodeCount) + NewNodesIn(policy, list.nodes, height)
      decreases height, 1
    {
      hide Within, Plus, Apart, AreLike, NodeFactory.Valid, Fits, Touched, Visited, ListFits;
      if list.nodes == [] && policy.emptyLists {
        NothingMade(factory.made);
        r := factory.ListLike(list, list.nodes);
        ListMade(old(factory.made), NOTHING, r, list);
        added := Plus(NOTHING, Made(map[], map[r := list]));
        NoneTouched(policy, list.nodes, height);
        return;
      }
      var result, changed, new1 := VisitSlice(list.nodes, height);
      if changed {
        r := factory.ListLike(list, result);
        ListMade(old(factory.made), new1, r, list);
        added := Plus(new1, Made(map[], map[r := list]));
        ListLater(policy, list.nodes, result, height, new1, added);
      } else {
        r, added := list, NOTHING;
        NothingMade(factory.made);
      }
    }

    method VisitSlot(c: Child, ghost height: nat) returns (d: Child, ghost added: Made)
      requires factory.Valid() && SlotFits(c, height)
      modifies factory
      ensures Grown(old(factory.made), added) && AreLike(added) && fresh(added.nodes.Keys) && fresh(added.lists.Keys)
      ensures ListFits(Members(c), height) && VisitedSlot(policy, c, d, height, added)
      ensures !SlotTouched(policy, c, height) ==> added == NOTHING
      ensures factory.nodeCount == old(factory.nodeCount) + NewNodesIn(policy, Members(c), height)
      decreases height, 2
    {
      hide Within, Plus, Apart, AreLike, NodeFactory.Valid, Fits, Touched, Visited, ListFits;
      match c {
        case Absent =>
          d, added := Absent, NOTHING;
          NothingMade(factory.made);
          NothingVisited(policy, [], height);
        case One(n) =>
          MemberFits(Members(c), 0, height);
          var visited;
          visited, added := Visit(n);
          d := One(visited);
          OneVisited(policy, n, visited, height, added);
        case Many(list) =>
          var r;
          r, added := VisitNodes(list, height);
          d := Many(r);
      }
    }

    method VisitSlots(n: Node) returns (slots: seq<Child>, ghost added: Made)
      requires factory.Valid() && Fits(n)
      modifies factory
      ensures Grown(old(factory.made), added) && AreLike(added) && fresh(added.nodes.Keys) && fresh(added.lists.Keys)
      ensures |slots| == |n.children| && VisitedSlots(policy, n, slots, added)
      ensures !SlotsTouched(policy, n, |n.children|) ==> added == NOTHING
      ensures factory.nodeCount == old(factory.nodeCount) + NewNodesOf(policy, n, |n.children|)
      decreases n.height, 3
    {
      hide Within, Plus, Apart, AreLike, NodeFactory.Valid, SlotFits, SlotTouched, VisitedSlot, Visited, NewNodesIn;
      slots, added := [], NOTHING;
      NothingMade(factory.made);
      var i := 0;
      while i < |n.children|
        invariant 0 <= i == |slots| <= |n.children|
        invariant Grown(old(factory.made), added) && AreLike(added) && fresh(added.nodes.Keys) && fresh(added.lists.Keys)
        invariant VisitedSlots(policy, n, slots, added)
        invariant !SlotsTouched(policy, n, i) ==> added == NOTHING
        invariant factory.nodeCount == old(factory.nodeCount) + NewNodesOf(policy, n, i)
      {
        var slot, more := VisitSlot(n.children[i], n.height);
        PlusSteps(old(factory.made), added, more);
        PlusLike(added, more);
        OneMoreSlot(policy, n, slots, slot, added, more, Plus(added, more));
        slots, added := slots + [slot], Plus(added, more);
        i := i + 1;
      }
    }

    /** All children are visited, and the node is updated with what the visits give. */
    method VisitEachChild(n: Node) returns (r: Node, ghost added: Made)
      requires factory.Valid() && Fits(n)
      modifies factory
      ensures Grown(old(factory.made), added) && AreLike(added) && fresh(added.nodes.Keys) && fresh(added.lists.Keys)
      ensures r == n <==> !SlotsTouched(policy, n, |n.children|)
      ensures r == n ==> added == NOTHING && factory.nodeCount == old(factory.nodeCount)
      ensures r != n ==> Visited(policy, n, r, added) && factory.nodeCount == old(factory.nodeCount) + NewNodes(policy, n)
      decreases n.height, 4
    {
      hide Within, Plus, Apart, AreLike, NodeFactory.Valid, SlotFits, Fits, SlotTouched, VisitedSlot, Visited, NewNodesOf;
      var slots;
      slots, added := VisitSlots(n);
      SameSlotsUntouched(policy, n, slots, added);
      r := factory.UpdateNode(n, slots);
      if r != n {
        ghost var all := Plus(added, Made(map[r := n], map[]));
        NodeMade(old(factory.made), added, r, n);
        UpdatedVisited(policy, n, slots, r, added, all);
        added := all;
      } else {
        UntouchedSlotsCost(policy, n, |n.children|);
      }
    }

    /** The callback. */
    method Visit(n: Node) returns (r: Node, ghost added: Made)
      requires factory.Valid() && Fits(n)
      modifies factory
      ensures Grown(old(factory.made), added) && AreLike(added) && fresh(added.nodes.Keys) && fresh(added.lists.Keys)
      ensures Visited(policy, n, r, added)
      ensures r == n <==> !Touched(policy, n)
      ensures r == n ==> added == NOTHING && factory.made == old(factory.made) && factory.nodeCount == old(factory.nodeCount)
      ensures factory.nodeCount == old(factory.nodeCount) + NewNodes(policy, n)
      decreases n.height, 5
    {
      hide Within, Plus, Apart, AreLike, NodeFactory.Valid, SlotFits, SlotTouched, VisitedSlot, Visited, Fits,
           NewNodesOf;
      r, added := VisitEachChild(n);
      if r != n {
        TouchedAbove(policy, n);
      } else if policy.forced(n) {
        NothingMade(factory.made);
        r := factory.NodeLike(n, n.children);
        NodeMade(old(factory.made), NOTHING, r, n);
        added := Plus(NOTHING, Made(map[r := n], map[]));
        CloneVisited(policy, n, r, added);
      } else {
        UntouchedVisited(policy, n, added);
        NothingMade(old(factory.made));
      }
    }
  }

  lemma TouchedAbove(p: Policy, n: Node)
    requires Fits(n) && SlotsTouched(p, n, |n.children|)
    ensures Touched(p, n)
  {
  }

  lemma OneVisited(p: Policy, n: Node, v: Node, height: nat, made: Made)
    requires SlotFits(One(n), height) && ListFits([n], height) && Fits(n) && Visited(p, n, v, made)
    ensures VisitedSlot(p, One(n), One(v), height, made)
    ensures SlotTouched(p, One(n), height) <==> Touched(p, n)
    ensures NewNodesIn(p, [n], height) == NewNodes(p, n)
  {
    hide Fits, Visited, Touched, NewNodes;
    assert [n][..0] == [] && [n][0] == n;
    assert AnyTouched(p, [n], height) <==> Touched(p, n);
    if !Touched(p, n) {
      UntouchedSame(p, n, v, made);
    }
  }

  lemma UntouchedSame(p: Policy, n: Node, v: Node, made: Made)
    requires Fits(n) && Visited(p, n, v, made) && !Touched(p, n)
    ensures v == n
  {
  }
}
