/** The token at a position: a descent that halves the lists of children, a scan of the gap that it ends in,
    and a cache of the tokens found by scanning. */
module TokenLookup {
  import opened Wrappers

  datatype Node = Node(id: nat, isToken: bool, pos: int, end: int, children: seq<Child>)

  datatype Child = One(node: Node) | Many(pos: int, end: int, nodes: seq<Node>)

  // ----- well-nested trees -----

  function Pos(c: Child): int {
    match c
    case One(n) => n.pos
    case Many(p, _, _) => p
  }

  function End(c: Child): int {
    match c
    case One(n) => n.end
    case Many(_, e, _) => e
  }

  /** Children lie inside their parent, one after the other. */
  predicate Nested(n: Node)
    decreases n, 1
  {
    n.pos <= n.end && ChildrenNested(n.children, n.pos, n.end)
  }

  predicate ChildrenNested(cs: seq<Child>, lo: int, hi: int)
    decreases cs, 0
  {
    lo <= hi &&
    (cs == [] || (lo <= Pos(cs[0]) <= End(cs[0]) && ChildNested(cs[0]) && ChildrenNested(cs[1..], End(cs[0]), hi)))
  }

  predicate ChildNested(c: Child)
    decreases c, 1
  {
    match c
    case One(n) => Nested(n)
    case Many(p, e, ns) => NodesNested(ns, p, e)
  }

  predicate NodesNested(ns: seq<Node>, lo: int, hi: int)
    decreases ns, 0
  {
    lo <= hi && (ns == [] || (lo <= ns[0].pos && Nested(ns[0]) && NodesNested(ns[1..], ns[0].end, hi)))
  }

  lemma {:induction false} NodesOrdered(ns: seq<Node>, lo: int, hi: int)
    requires NodesNested(ns, lo, hi)
    ensures forall i :: 0 <= i < |ns| ==> lo <= ns[i].pos <= ns[i].end <= hi && Nested(ns[i])
    ensures forall i, j :: 0 <= i < j < |ns| ==> ns[i].end <= ns[j].pos
  {
    if ns != [] {
      NodesOrdered(ns[1..], ns[0].end, hi);
      assert forall i :: 0 < i < |ns| ==> ns[i] == ns[1..][i - 1];
    }
  }

  // ----- the linear search -----

  predicate Contains(n: Node, p: int) {
    n.pos <= p < n.end
  }

  /** The first node that contains the position. */
  function FirstOf(ns: seq<Node>, p: int): (r: Option<Node>)
    ensures r.Some? ==> r.value in ns && Contains(r.value, p)
    ensures r.None? ==> forall n :: n in ns ==> !Contains(n, p)
  {
    if ns == [] then None else if Contains(ns[0], p) then Some(ns[0]) else FirstOf(ns[1..], p)
  }

  function Nodes(c: Child): seq<Node> {
    match c
    case One(n) => [n]
    case Many(_, _, ns) => ns
  }

  function NextOf(cs: seq<Child>, p: int): (r: Option<Node>)
    ensures r.Some? ==> Contains(r.value, p) && exists i :: 0 <= i < |cs| && r.value in Nodes(cs[i])
    ensures r.None? ==> forall i, n :: 0 <= i < |cs| && n in Nodes(cs[i]) ==> !Contains(n, p)
  {
    if cs == [] then None
    else
      var first := FirstOf(Nodes(cs[0]), p);
      if first.Some? then first else NextOf(cs[1..], p)
  }

  /** The end of the last node that ends at or before the position. */
  function LastEnd(ns: seq<Node>, p: int, left: int): int {
    if ns == [] || ns[0].end > p then left else LastEnd(ns[1..], p, ns[0].end)
  }

  /** The end of the last sibling that ends at or before the position, or of the last node before it in the
      list around it. */
  function LeftOf(cs: seq<Child>, p: int, left: int): int {
    if cs == [] then left
    else LeftOf(cs[1..], p, LeftOfChild(cs[0], p, left))
  }

  function LeftOfChild(c: Child, p: int, left: int): int {
    match c
    case One(n) => if n.end <= p then n.end else left
    case Many(pos, end, ns) =>
      if ns == [] then left
      else if end <= p then end
      else if pos <= p then LastEnd(ns, p, left)
      else left
  }

  /** Where the descent ends. */
  function Deepest(n: Node, p: int): (r: Node)
    requires Nested(n)
    ensures Nested(r)
    ensures Contains(n, p) ==> Contains(r, p)
    ensures NextOf(r.children, p).None?
    decreases n
  {
    var next := NextOf(n.children, p);
    if next.None? then n
    else
      ChildIsSmaller(n, next.value);
      Deepest(next.value, p)
  }

  lemma ChildIsSmaller(n: Node, c: Node)
    requires Nested(n) && exists i :: 0 <= i < |n.children| && c in Nodes(n.children[i])
    ensures c < n && Nested(c) && n.pos <= c.pos && c.end <= n.end
  {
    var i :| 0 <= i < |n.children| && c in Nodes(n.children[i]);
    EachNested(n.children, n.pos, n.end, i);
    match n.children[i]
    case One(x) =>
    case Many(p, e, ns) => NodesOrdered(ns, p, e);
  }

  lemma {:induction false} EachNested(cs: seq<Child>, lo: int, hi: int, i: nat)
    requires ChildrenNested(cs, lo, hi) && i < |cs|
    ensures ChildNested(cs[i]) && lo <= Pos(cs[i]) <= End(cs[i]) <= hi
  {
    if i > 0 {
      EachNested(cs[1..], End(cs[0]), hi, i - 1);
    } else {
      assert ChildrenNested(cs[1..], End(cs[0]), hi);
    }
  }

  // ----- the descent -----

  /** Compares a node with the position. */
  function TestNode(n: Node, p: int): int {
    if n.end <= p then -1 else if n.pos > p then 1 else 0
  }

  /** Halves a list; no more than one of its nodes can match. */
  method SearchList(ns: seq<Node>, p: int, left: int, ghost lo: int, ghost hi: int)
    returns (index: nat, found: bool, left': int)
    requires NodesNested(ns, lo, hi)
    ensures found ==> index < |ns| && Contains(ns[index], p)
    ensures !found ==> (forall n :: n in ns ==> !Contains(n, p)) && left' == LastEnd(ns, p, left)
  {
    NodesOrdered(ns, lo, hi);
    left' := left;
    var low, high := 0, |ns| - 1;
    while low <= high
      invariant 0 <= low <= high + 1 <= |ns|
      invariant forall i :: 0 <= i < low ==> ns[i].end <= p
      invariant forall i :: high < i < |ns| ==> ns[i].pos > p
      invariant left' == if low == 0 then left else ns[low - 1].end
    {
      var middle := low + (high - low) / 2;
      var value := TestNode(ns[middle], p);
      if value < 0 {
        left' := ns[middle].end;
        low := middle + 1;
      } else if value > 0 {
        high := middle - 1;
      } else {
        return middle, true, left';
      }
    }
    LastEndAt(ns, p, left, low);
    return low, false, left';
  }

  lemma {:induction false} LastEndAt(ns: seq<Node>, p: int, left: int, n: nat)
    requires n <= |ns| && (forall i :: 0 <= i < n ==> ns[i].end <= p) && (n < |ns| ==> ns[n].end > p)
    ensures LastEnd(ns, p, left) == if n == 0 then left else ns[n - 1].end
  {
    if n > 0 {
      LastEndAt(ns[1..], p, ns[0].end, n - 1);
    }
  }

  lemma {:induction false} UniqueIsFirst(ns: seq<Node>, p: int, lo: int, hi: int, i: nat)
    requires NodesNested(ns, lo, hi) && i < |ns| && Contains(ns[i], p)
    ensures FirstOf(ns, p) == Some(ns[i])
  {
    NodesOrdered(ns, lo, hi);
    if i > 0 {
      UniqueIsFirst(ns[1..], p, ns[0].end, hi, i - 1);
    }
  }

  /** The child that contains the position, as the linear search would find it. */
  method VisitChild(c: Child, p: int, left: int) returns (next: Option<Node>, left': int)
    requires ChildNested(c)
    ensures next == FirstOf(Nodes(c), p)
    ensures next.None? ==> left' == LeftOfChild(c, p, left)
  {
    next, left' := None, left;
    match c {
      case One(n) =>
        assert FirstOf([n], p) == if Contains(n, p) then Some(n) else None;
        var test := TestNode(n, p);
        if test < 0 {
          left' := n.end;
        } else if test == 0 {
          next := Some(n);
        }
      case Many(pos, end, ns) =>
        NodesOrdered(ns, pos, end);
        if ns != [] {
          if end <= p {
            left' := end;
          } else if pos <= p {
            var index, found;
            index, found, left' := SearchList(ns, p, left, pos, end);
            if found {
              UniqueIsFirst(ns, p, pos, end, index);
              next := Some(ns[index]);
            }
          }
        }
    }
  }

  method VisitChildren(n: Node, p: int, start: int) returns (next: Option<Node>, left: int)
    requires Nested(n)
    ensures next == NextOf(n.children, p)
    ensures next.None? ==> left == LeftOf(n.children, p, start)
  {
    var cs := n.children;
    next, left := None, start;
    var i := 0;
    while i < |cs|
      invariant 0 <= i <= |cs|
      invariant if next.Some? then next == NextOf(cs, p) else NextOf(cs, p) == NextOf(cs[i..], p)
      invariant next.None? ==> LeftOf(cs, p, start) == LeftOf(cs[i..], p, left)
    {
      assert cs[i..][1..] == cs[i + 1..];
      if next.None? {
        EachNested(cs, n.pos, n.end, i);
        next, left := VisitChild(cs[i], p, left);
      }
      i := i + 1;
    }
  }

  // ----- tokens -----

  /** A token with its leading trivia. Identifiers, and what is no token at all, are `treeOnly`: they have
      nodes of their own. */
  datatype Token = Token(pos: int, end: int, kind: nat, treeOnly: bool)

  /** The tokens of a file follow each other without gaps. */
  ghost predicate Tiling(tokens: seq<Token>) {
    && (forall i :: 0 <= i < |tokens| ==> tokens[i].pos < tokens[i].end)
    && (forall i :: 0 <= i < |tokens| - 1 ==> tokens[i].end == tokens[i + 1].pos)
  }

  /** Not inside a token. */
  ghost predicate IsBoundary(tokens: seq<Token>, p: int) {
    forall i :: 0 <= i < |tokens| ==> !(tokens[i].pos < p < tokens[i].end)
  }

  ghost predicate InToken(tokens: seq<Token>, i: nat, p: int) {
    i < |tokens| && tokens[i].pos <= p < tokens[i].end
  }

  /** No node or list starts or ends inside a token. */
  ghost predicate Aligned(tokens: seq<Token>, n: Node)
    decreases n, 1
  {
    IsBoundary(tokens, n.pos) && IsBoundary(tokens, n.end) && forall i :: 0 <= i < |n.children| ==> AlignedChild(tokens, n.children[i])
  }

  ghost predicate AlignedChild(tokens: seq<Token>, c: Child)
    decreases c, 1
  {
    match c
    case One(n) => Aligned(tokens, n)
    case Many(p, e, ns) => IsBoundary(tokens, p) && IsBoundary(tokens, e) && forall i :: 0 <= i < |ns| ==> Aligned(tokens, ns[i])
  }

  ghost predicate IsFile(tokens: seq<Token>, root: Node) {
    && Nested(root) && Tiling(tokens) && Aligned(tokens, root) && root.pos == 0
    && (forall i :: 0 <= i < |tokens| ==> root.pos <= tokens[i].pos && tokens[i].end <= root.end)
    && (if tokens == [] then root.pos == root.end else tokens[0].pos == root.pos && tokens[|tokens| - 1].end == root.end)
  }

  lemma {:induction false} TilesOrdered(tokens: seq<Token>, i: nat, j: nat)
    requires Tiling(tokens) && i < j < |tokens|
    ensures tokens[i].end <= tokens[j].pos
  {
    assert tokens[j - 1].end == tokens[j - 1 + 1].pos;
    if i < j - 1 {
      TilesOrdered(tokens, i, j - 1);
    }
  }

  lemma SameTile(tokens: seq<Token>, i: nat, j: nat, p: int)
    requires Tiling(tokens) && InToken(tokens, i, p) && InToken(tokens, j, p)
    ensures i == j
  {
    if i < j {
      TilesOrdered(tokens, i, j);
    } else if j < i {
      TilesOrdered(tokens, j, i);
    }
  }

  /** A boundary before a position is where a token starts. */
  lemma {:induction false} BoundaryStarts(tokens: seq<Token>, left: int, i: nat) returns (k: nat)
    requires Tiling(tokens) && IsBoundary(tokens, left) && i < |tokens| && tokens[0].pos <= left < tokens[i].end
    ensures k <= i && tokens[k].pos == left
  {
    if tokens[i].pos <= left {
      k := i;
    } else {
      assert tokens[i - 1].end == tokens[i - 1 + 1].pos;
      k := BoundaryStarts(tokens, left, i - 1);
    }
  }

  // ----- the left boundary -----

  lemma {:induction false} LastEndRange(tokens: seq<Token>, ns: seq<Node>, p: int, left: int, lo: int)
    requires left <= p && lo <= left && IsBoundary(tokens, left)
    requires forall i :: 0 <= i < |ns| ==> Aligned(tokens, ns[i]) && lo <= ns[i].end
    ensures lo <= LastEnd(ns, p, left) <= p && IsBoundary(tokens, LastEnd(ns, p, left))
  {
    hide Aligned, IsBoundary;
    if ns != [] && ns[0].end <= p {
      assert IsBoundary(tokens, ns[0].end) by { AlignedEnds(tokens, ns[0]); }
      assert forall i :: 0 <= i < |ns[1..]| ==> ns[1..][i] == ns[i + 1];
      LastEndRange(tokens, ns[1..], p, ns[0].end, lo);
    }
  }

  lemma AlignedEnds(tokens: seq<Token>, n: Node)
    requires Aligned(tokens, n)
    ensures IsBoundary(tokens, n.pos) && IsBoundary(tokens, n.end)
  {
  }

  /** The left boundary stays between the start of the node and the position, and on the boundary of a
      token: the scan that starts there meets the token at the position. */
  lemma {:induction false} LeftRange(tokens: seq<Token>, cs: seq<Child>, p: int, left: int, lo: int, hi: int,
                                     bottom: int)
    requires bottom <= left <= p && bottom <= lo && IsBoundary(tokens, left) && ChildrenNested(cs, lo, hi)
    requires forall i :: 0 <= i < |cs| ==> AlignedChild(tokens, cs[i])
    ensures bottom <= LeftOf(cs, p, left) <= p && IsBoundary(tokens, LeftOf(cs, p, left))
  {
    hide Aligned, IsBoundary;
    if cs != [] {
      match cs[0] {
        case One(n) => AlignedEnds(tokens, n);
        case Many(pos, end, ns) =>
          NodesOrdered(ns, pos, end);
          LastEndRange(tokens, ns, p, left, bottom);
      }
      assert forall i :: 0 <= i < |cs[1..]| ==> cs[1..][i] == cs[i + 1];
      LeftRange(tokens, cs[1..], p, LeftOfChild(cs[0], p, left), End(cs[0]), hi, bottom);
    }
  }

  /** What ends at or before the position: a child, a list that is not empty, or, in the list around the
      position, one of its nodes. */
  ghost predicate EndsBefore(c: Child, p: int, e: int) {
    match c
    case One(n) => e == n.end <= p
    case Many(pos, end, ns) =>
      || (ns != [] && e == end <= p)
      || (pos <= p < end && exists i :: 0 <= i < |ns| && e == ns[i].end <= p)
  }

  lemma {:induction false} LastEndMeaning(ns: seq<Node>, p: int, left: int, lo: int, hi: int)
    requires NodesNested(ns, lo, hi) && left <= lo
    ensures left <= LastEnd(ns, p, left) <= hi && forall i :: 0 <= i < |ns| && ns[i].end <= p ==> ns[i].end <= LastEnd(ns, p, left)
    ensures LastEnd(ns, p, left) == left || exists i :: 0 <= i < |ns| && LastEnd(ns, p, left) == ns[i].end <= p
    decreases |ns|
  {
    NodesOrdered(ns, lo, hi);
    if ns != [] && ns[0].end <= p {
      LastEndMeaning(ns[1..], p, ns[0].end, ns[0].end, hi);
      assert forall i :: 0 <= i < |ns[1..]| ==> ns[1..][i] == ns[i + 1];
    }
  }

  lemma ChildLeft(c: Child, p: int, left: int)
    requires ChildNested(c) && left <= Pos(c) <= End(c)
    ensures left <= LeftOfChild(c, p, left) <= End(c)
    ensures forall e :: EndsBefore(c, p, e) ==> e <= LeftOfChild(c, p, left)
    ensures LeftOfChild(c, p, left) == left || EndsBefore(c, p, LeftOfChild(c, p, left))
  {
    if c.Many? {
      LastEndMeaning(c.nodes, p, left, c.pos, c.end);
    }
  }

  /** The left boundary is the last end at or before the position, of a sibling or of a node in the list
      around the position, or the start if there is none. */
  lemma {:induction false} LeftMeaning(cs: seq<Child>, p: int, left: int, lo: int, hi: int)
    requires ChildrenNested(cs, lo, hi) && left <= lo
    ensures left <= LeftOf(cs, p, left)
    ensures forall i, e :: 0 <= i < |cs| && EndsBefore(cs[i], p, e) ==> e <= LeftOf(cs, p, left)
    ensures LeftOf(cs, p, left) == left || exists i :: 0 <= i < |cs| && EndsBefore(cs[i], p, LeftOf(cs, p, left))
    decreases |cs|
  {
    hide EndsBefore, LeftOfChild;
    if cs != [] {
      ChildLeft(cs[0], p, left);
      var next, rest := LeftOfChild(cs[0], p, left), cs[1..];
      LeftMeaning(rest, p, next, End(cs[0]), hi);
      assert forall i :: 0 <= i < |rest| ==> rest[i] == cs[i + 1];
      assert forall i :: 0 < i < |cs| ==> cs[i] == rest[i - 1];
    }
  }

  // ----- positions in one token -----

  lemma SameContains(tokens: seq<Token>, n: Node, i: nat, p: int, q: int)
    requires Aligned(tokens, n) && InToken(tokens, i, p) && InToken(tokens, i, q)
    ensures Contains(n, p) == Contains(n, q)
  {
  }

  lemma {:induction false} SameFirst(tokens: seq<Token>, ns: seq<Node>, i: nat, p: int, q: int)
    requires (forall j :: 0 <= j < |ns| ==> Aligned(tokens, ns[j])) && InToken(tokens, i, p) && InToken(tokens, i, q)
    ensures FirstOf(ns, p) == FirstOf(ns, q)
  {
    hide Aligned, Contains, InToken;
    if ns != [] {
      SameContains(tokens, ns[0], i, p, q);
      assert forall j :: 0 <= j < |ns[1..]| ==> ns[1..][j] == ns[j + 1];
      SameFirst(tokens, ns[1..], i, p, q);
    }
  }

  lemma {:induction false} SameNext(tokens: seq<Token>, cs: seq<Child>, i: nat, p: int, q: int)
    requires (forall j :: 0 <= j < |cs| ==> AlignedChild(tokens, cs[j])) && InToken(tokens, i, p) && InToken(tokens, i, q)
    ensures NextOf(cs, p) == NextOf(cs, q)
  {
    hide Aligned, Contains, InToken, IsBoundary, FirstOf;
    if cs != [] {
      SameFirst(tokens, Nodes(cs[0]), i, p, q);
      assert forall j :: 0 <= j < |cs[1..]| ==> cs[1..][j] == cs[j + 1];
      SameNext(tokens, cs[1..], i, p, q);
    }
  }

  lemma NextAligned(tokens: seq<Token>, n: Node, p: int)
    requires Aligned(tokens, n) && NextOf(n.children, p).Some?
    ensures Aligned(tokens, NextOf(n.children, p).value)
  {
    hide NextOf, IsBoundary;
    var c := NextOf(n.children, p).value;
    var i :| 0 <= i < |n.children| && c in Nodes(n.children[i]);
    assert AlignedChild(tokens, n.children[i]);
  }

  /** The descent ends at the same node for every position in one token. */
  lemma {:induction false} SameDeepest(tokens: seq<Token>, n: Node, i: nat, p: int, q: int)
    requires Nested(n) && Aligned(tokens, n) && InToken(tokens, i, p) && InToken(tokens, i, q)
    ensures Deepest(n, p) == Deepest(n, q) && Aligned(tokens, Deepest(n, p))
    decreases n
  {
    hide NextOf, InToken, IsBoundary;
    SameNext(tokens, n.children, i, p, q);
    var next := NextOf(n.children, p);
    if next.Some? {
      ChildIsSmaller(n, next.value);
      NextAligned(tokens, n, p);
      SameDeepest(tokens, next.value, i, p, q);
    }
  }

  // ----- the lookup -----

  class TokenNode {
    const kind: nat
    const pos: int
    const end: int
    const parent: Node

    constructor (kind: nat, pos: int, end: int, parent: Node)
      ensures this.kind == kind && this.pos == pos && this.end == end && this.parent == parent
    {
      this.kind, this.pos, this.end, this.parent := kind, pos, end, parent;
    }
  }

  /** A node of the tree, a token found by scanning, or a token that should have had a node. */
  datatype Found = InTree(node: Node) | Scanned(token: TokenNode) | Unexpected

  class SourceFile {
    const root: Node
    const tokens: seq<Token>
    var tokenCache: map<(int, int), TokenNode>

    /** Every cached token is a token of the file, with the deepest node around it as its parent. */
    ghost predicate Valid()
      reads this
    {
      && IsFile(tokens, root)
      && forall i :: 0 <= i < |tokens| && (tokens[i].pos, tokens[i].end) in tokenCache ==> IsToken(tokenCache[(tokens[i].pos, tokens[i].end)], i)
    }

    ghost predicate IsToken(t: TokenNode, i: nat)
      requires Nested(root) && i < |tokens|
    {
      t.pos == tokens[i].pos && t.end == tokens[i].end && t.kind == tokens[i].kind && t.parent == Deepest(root, tokens[i].pos)
    }

    constructor (root: Node, tokens: seq<Token>)
      requires IsFile(tokens, root)
      ensures Valid() && this.root == root && this.tokens == tokens && tokenCache == map[]
    {
      this.root, this.tokens, tokenCache := root, tokens, map[];
    }

    /** Two callers may not disagree about a token. */
    method GetOrCreateToken(kind: nat, pos: int, end: int, parent: Node) returns (t: TokenNode)
      requires (pos, end) in tokenCache ==> tokenCache[(pos, end)].kind == kind && tokenCache[(pos, end)].parent == parent
      modifies this`tokenCache
      ensures if (pos, end) in old(tokenCache) then t == old(tokenCache)[(pos, end)] && tokenCache == old(tokenCache)
              else t.kind == kind && t.pos == pos && t.end == end && t.parent == parent && tokenCache == old(tokenCache)[(pos, end) := t]
    {
      if (pos, end) in tokenCache {
        return tokenCache[(pos, end)];
      }
      t := new TokenNode(kind, pos, end, parent);
      tokenCache := tokenCache[(pos, end) := t];
    }

    /** The deepest node that contains the position, if it is a token, or else the one token of the file that
        does, always as the same object. The cache never disagrees. */
    method GetTokenAtPosition(p: nat) returns (r: Found)
      requires Valid()
      modifies this`tokenCache
      ensures Valid() && forall loc :: loc in old(tokenCache) ==> loc in tokenCache && tokenCache[loc] == old(tokenCache)[loc]
      ensures Deepest(root, p).isToken || !Contains(root, p) ==> r == InTree(Deepest(root, p))
      ensures forall i: nat :: !Deepest(root, p).isToken && InToken(tokens, i, p) ==>
                if tokens[i].treeOnly then r == Unexpected
                else (tokens[i].pos, tokens[i].end) in tokenCache && r == Scanned(tokenCache[(tokens[i].pos, tokens[i].end)]) && IsToken(r.token, i)
    {
      hide Nested, Aligned, Deepest, IsBoundary, Contains, InToken;
      var current, left := Descend(p);
      if current.isToken {
          return InTree(current);
      }
      r := ScanGap(current, p, left);
    }

    /** From child to child, until none contains the position. */
    method Descend(p: nat) returns (current: Node, left: int)
      requires IsFile(tokens, root)
      ensures current == Deepest(root, p) && Aligned(tokens, current) && current.end <= root.end
      ensures current == root || Contains(current, p)
      ensures 0 <= left <= p && IsBoundary(tokens, left)
    {
      hide Aligned, NextOf, IsBoundary, LeftOf;
      current := root;
      while true
        invariant Nested(current) && Aligned(tokens, current) && Deepest(root, p) == Deepest(current, p)
        invariant current == root || Contains(current, p)
        invariant 0 <= current.pos <= p && current.end <= root.end
        decreases current
      {
        var next;
        next, left := VisitChildren(current, p, current.pos);
        if next.None? {
          FromStart(current, p);
          return;
        }
        ChildIsSmaller(current, next.value);
        NextAligned(tokens, current, p);
        current := next.value;
      }
    }

    lemma FromStart(n: Node, p: nat)
      requires Nested(n) && Aligned(tokens, n) && 0 <= n.pos <= p
      ensures 0 <= LeftOf(n.children, p, n.pos) <= p && IsBoundary(tokens, LeftOf(n.children, p, n.pos))
    {
      LeftRange(tokens, n.children, p, n.pos, n.pos, n.end, 0);
    }

    /** The scanner, at the token that starts at `left`. */
    method StartScanner(left: int) returns (k: nat)
      requires Tiling(tokens) && exists i :: 0 <= i < |tokens| && tokens[i].pos == left
      ensures k < |tokens| && tokens[k].pos == left
    {
      k := 0;
      while tokens[k].pos != left
        invariant k < |tokens| && forall j :: 0 <= j < k ==> tokens[j].pos != left
        decreases |tokens| - k
      {
        k := k + 1;
      }
    }

    /** Scans the gap between the children for the token at the position. */
    method ScanGap(current: Node, p: nat, start: int) returns (r: Found)
      requires Valid() && current == Deepest(root, p) && !current.isToken && Aligned(tokens, current)
      requires (current == root || Contains(current, p)) && current.end <= root.end
      requires 0 <= start <= p && IsBoundary(tokens, start)
      modifies this`tokenCache
      ensures Valid() && forall loc :: loc in old(tokenCache) ==> loc in tokenCache && tokenCache[loc] == old(tokenCache)[loc]
      ensures !Contains(root, p) ==> r == InTree(current)
      ensures forall i: nat :: InToken(tokens, i, p) ==>
                if tokens[i].treeOnly then r == Unexpected
                else (tokens[i].pos, tokens[i].end) in tokenCache && r == Scanned(tokenCache[(tokens[i].pos, tokens[i].end)]) && IsToken(r.token, i)
    {
      hide Nested, Aligned, Deepest, IsBoundary;
      var left := start;
      var k: nat := 0;
      if left < current.end {
        ghost var at := BoundaryStarts(tokens, left, |tokens| - 1);
        k := StartScanner(left);
      }
      while left < current.end
        invariant left <= p && (left < current.end ==> k < |tokens| && tokens[k].pos == left)
        invariant tokenCache == old(tokenCache)
        decreases |tokens| - k
      {
        var token := tokens[k];
        if token.pos <= p < token.end {
          forall i: nat | InToken(tokens, i, p)
            ensures i == k
          {
            SameTile(tokens, i, k, p);
          }
          if token.treeOnly {
            return Unexpected;
          }
          SameDeepest(tokens, root, k, p, token.pos);
          var t := GetOrCreateToken(token.kind, token.pos, token.end, current);
          forall i | 0 <= i < |tokens| && (tokens[i].pos, tokens[i].end) in tokenCache
            ensures IsToken(tokenCache[(tokens[i].pos, tokens[i].end)], i)
          {
            if (tokens[i].pos, tokens[i].end) == (token.pos, token.end) {
              SameTile(tokens, i, k, token.pos);
            }
          }
          return Scanned(t);
        }
        left := token.end;
        k := k + 1;
      }
      return InTree(current);
    }
  }

  /** Two lookups in one gap token give one object. */
  method LookUpTwice(f: SourceFile, p: nat, q: nat, ghost i: nat) returns (first: Found, second: Found)
    requires f.Valid() && InToken(f.tokens, i, p) && InToken(f.tokens, i, q)
    requires !Deepest(f.root, p).isToken && !Deepest(f.root, q).isToken
    modifies f`tokenCache
    ensures first == second
  {
    hide Deepest, IsFile;
    first := f.GetTokenAtPosition(p);
    second := f.GetTokenAtPosition(q);
  }
}
