/** Whether a namespace is instantiated: a memoised depth-first search through bodies, statements and the
    targets of export aliases, which cuts cycles by taking a node in progress for not instantiated. It is
    proved against plain reachability of a statement that instantiates. */
module ModuleInstances {
  import opened Wrappers

  type NodeId = nat

  /** In the order of their numbers. */
  datatype InstanceState = Unknown | NonInstantiated | Instantiated | ConstEnumOnly

  function Rank(s: InstanceState): nat {
    match s
    case Unknown => 0
    case NonInstantiated => 1
    case Instantiated => 2
    case ConstEnumOnly => 3
  }

  datatype Node =
    | SourceFile(statements: seq<NodeId>)
    | Block(statements: seq<NodeId>)
    | ModuleBlock(statements: seq<NodeId>)
    | ModuleDeclaration(name: string, body: Option<NodeId>)
    | TypeDeclaration(name: string) // an interface or a type alias
    | EnumDeclaration(name: string, isConst: bool)
    | ImportDeclaration(exported: bool)
    | ImportEqualsDeclaration(name: string, exported: bool)
    | ExportDeclaration(exportClause: Option<NodeId>) // none: from another module, or without a list of names
    | NamedExports(specifiers: seq<Option<string>>) // none: a string literal in the place of an identifier
    | VariableStatement(names: seq<string>)
    | Declaration(name: string) // a function or class
    | Statement

  /** `up` gives the parents as the tree has them; `parent` the Parent fields, which may not be set yet. */
  datatype Tree = Tree(nodes: seq<Node>, up: seq<Option<NodeId>>, parent: seq<Option<NodeId>>)

  function Children(n: Node): seq<NodeId> {
    match n
    case SourceFile(ss) => ss
    case Block(ss) => ss
    case ModuleBlock(ss) => ss
    case ModuleDeclaration(_, Some(b)) => [b]
    case ExportDeclaration(Some(c)) => [c]
    case _ => []
  }

  /** A node comes after its parent. */
  ghost predicate IsTree(t: Tree) {
    && |t.nodes| == |t.up| == |t.parent|
    && (forall n, c :: 0 <= n < |t.nodes| && c in Children(t.nodes[n]) ==> n < c < |t.nodes| && t.up[c] == Some(n))
    && (forall n :: 0 <= n < |t.nodes| && t.up[n].Some? ==> t.up[n].value < n)
    && (forall n :: 0 <= n < |t.nodes| && t.nodes[n].ExportDeclaration? && t.nodes[n].exportClause.Some? ==>
          t.nodes[n].exportClause.value < |t.nodes| && t.nodes[t.nodes[n].exportClause.value].NamedExports?)
  }

  predicate IsBlockLike(n: Node) {
    n.Block? || n.ModuleBlock? || n.SourceFile?
  }

  predicate NodeHasName(n: Node, name: string) {
    match n
    case ModuleDeclaration(x, _) => x == name
    case TypeDeclaration(x) => x == name
    case EnumDeclaration(x, _) => x == name
    case ImportEqualsDeclaration(x, _) => x == name
    case Declaration(x) => x == name
    case VariableStatement(xs) => name in xs
    case _ => false
  }

  // ----- what the search looks for -----

  ghost predicate Declares(t: Tree, p: NodeId, name: string, s: NodeId) {
    p < |t.nodes| && IsBlockLike(t.nodes[p]) && s in t.nodes[p].statements && s < |t.nodes| && NodeHasName(t.nodes[s], name)
  }

  /** The first block, from `p` outwards, that declares the name. */
  ghost function BlockFrom(t: Tree, p: NodeId, name: string): Option<NodeId>
    requires IsTree(t) && p < |t.nodes|
    decreases p
  {
    if exists s :: Declares(t, p, name, s) then Some(p)
    else if t.up[p].None? then None
    else BlockFrom(t, t.up[p].value, name)
  }

  ghost function AliasBlock(t: Tree, n: NodeId, name: string): Option<NodeId>
    requires IsTree(t) && n < |t.nodes|
  {
    if t.up[n].None? then None else BlockFrom(t, t.up[n].value, name)
  }

  /** The statements that a name exported at `n` refers to. */
  ghost predicate IsAliasTarget(t: Tree, n: NodeId, name: string, s: NodeId)
    requires IsTree(t) && n < |t.nodes|
  {
    AliasBlock(t, n, name).Some? && Declares(t, AliasBlock(t, n, name).value, name, s)
  }

  ghost function Specifiers(t: Tree, n: NodeId): seq<Option<string>>
    requires IsTree(t) && n < |t.nodes| && t.nodes[n].ExportDeclaration? && t.nodes[n].exportClause.Some?
  {
    t.nodes[t.nodes[n].exportClause.value].specifiers
  }

  /** From a namespace to its body, to the statements of the body, and on to what they export. */
  ghost predicate Edge(t: Tree, n: NodeId, m: NodeId)
    requires IsTree(t)
  {
    && n < |t.nodes|
    && match t.nodes[n]
       case ModuleDeclaration(_, Some(b)) => m == b
       case ModuleBlock(ss) => m in ss
       case ExportDeclaration(Some(c)) => exists name :: Some(name) in Specifiers(t, n) && IsAliasTarget(t, c, name, m)
       case _ => false
  }

  /** An exported name that may refer to a value that the search cannot see. */
  ghost predicate Unresolved(t: Tree, c: NodeId, x: Option<string>)
    requires IsTree(t) && c < |t.nodes|
  {
    || x.None?
    || AliasBlock(t, c, x.value).None?
    || exists s: NodeId :: IsAliasTarget(t, c, x.value, s) && t.nodes[s].ImportEqualsDeclaration?
  }

  ghost predicate Instantiates(t: Tree, n: NodeId)
    requires IsTree(t)
  {
    && n < |t.nodes|
    && match t.nodes[n]
       case TypeDeclaration(_) => false
       case EnumDeclaration(_, isConst) => !isConst
       case ImportDeclaration(exported) => exported
       case ImportEqualsDeclaration(_, exported) => exported
       case ExportDeclaration(Some(c)) => exists x :: x in Specifiers(t, n) && Unresolved(t, c, x)
       case ModuleBlock(_) => false
       case ModuleDeclaration(_, b) => b.None?
       case _ => true
  }

  ghost predicate IsConstEnum(t: Tree, n: NodeId) {
    n < |t.nodes| && t.nodes[n].EnumDeclaration? && t.nodes[n].isConst
  }

  ghost predicate IsPath(t: Tree, path: seq<NodeId>)
    requires IsTree(t)
  {
    forall i :: 0 <= i < |path| - 1 ==> Edge(t, path[i], path[i + 1])
  }

  ghost predicate Reaches(t: Tree, n: NodeId, m: NodeId)
    requires IsTree(t)
  {
    exists path :: |path| > 0 && path[0] == n && path[|path| - 1] == m && IsPath(t, path)
  }

  ghost predicate MayInstantiate(t: Tree, n: NodeId)
    requires IsTree(t)
  {
    exists m :: Reaches(t, n, m) && Instantiates(t, m)
  }

  ghost predicate MayDeclareConstEnum(t: Tree, n: NodeId)
    requires IsTree(t)
  {
    exists m :: Reaches(t, n, m) && IsConstEnum(t, m)
  }

  lemma ReachesSelf(t: Tree, n: NodeId)
    requires IsTree(t)
    ensures Reaches(t, n, n)
  {
    assert [n][0] == n && IsPath(t, [n]);
  }

  lemma ReachesStep(t: Tree, n: NodeId, c: NodeId, m: NodeId)
    requires IsTree(t) && Edge(t, n, c) && Reaches(t, c, m)
    ensures Reaches(t, n, m)
  {
    var path :| |path| > 0 && path[0] == c && path[|path| - 1] == m && IsPath(t, path);
    var longer := [n] + path;
    forall i | 0 <= i < |longer| - 1
      ensures Edge(t, longer[i], longer[i + 1])
    {
      if i > 0 {
        assert Edge(t, path[i - 1], path[i - 1 + 1]);
      }
    }
    assert longer[0] == n && longer[|longer| - 1] == m && IsPath(t, longer);
  }

  // ----- what a result says -----

  /** A result other than "not instantiated" has a reason. */
  ghost predicate Justified(t: Tree, n: NodeId, r: InstanceState)
    requires IsTree(t)
  {
    && (r.Instantiated? ==> MayInstantiate(t, n))
    && (r.ConstEnumOnly? ==> MayDeclareConstEnum(t, n))
    && (IsConstEnum(t, n) ==> r.ConstEnumOnly? || r.Unknown?)
  }

  lemma JustifiedStep(t: Tree, n: NodeId, c: NodeId, r: InstanceState)
    requires IsTree(t) && Edge(t, n, c)
    requires (r.Instantiated? ==> MayInstantiate(t, c)) && (r.ConstEnumOnly? ==> MayDeclareConstEnum(t, c))
    ensures Justified(t, n, r)
  {
    hide Reaches, Instantiates, IsTree;
    if r.Instantiated? {
      var m :| Reaches(t, c, m) && Instantiates(t, m);
      ReachesStep(t, n, c, m);
    } else if r.ConstEnumOnly? {
      var m :| Reaches(t, c, m) && IsConstEnum(t, m);
      ReachesStep(t, n, c, m);
    }
  }

  lemma JustifiedHere(t: Tree, n: NodeId, r: InstanceState)
    requires IsTree(t)
    requires r.Instantiated? ==> Instantiates(t, n)
    requires r.ConstEnumOnly? ==> IsConstEnum(t, n)
    requires IsConstEnum(t, n) ==> r.ConstEnumOnly? || r.Unknown?
    ensures Justified(t, n, r)
  {
    hide Instantiates, IsConstEnum, Reaches;
    ReachesSelf(t, n);
  }

  /** The two questions asked of a search: did it find nothing at all, or nothing that instantiates? */
  datatype Question = Anything | Instantiation

  predicate Negative(q: Question, r: InstanceState) {
    if q.Anything? then r.NonInstantiated? else !r.Instantiated?
  }

  ghost predicate Hit(t: Tree, q: Question, n: NodeId)
    requires IsTree(t)
  {
    Instantiates(t, n) || (q.Anything? && IsConstEnum(t, n))
  }

  /** The nodes that a search with a negative answer has visited since `before` are no hits, and everything
      they lead to has been visited. */
  ghost predicate Explored(t: Tree, q: Question, before: set<NodeId>, visited: map<NodeId, InstanceState>)
    requires IsTree(t)
  {
    forall k :: k in visited.Keys - before ==>
                  && Negative(q, visited[k]) && !Hit(t, q, k)
                  && forall m :: Edge(t, k, m) ==> m in visited
  }

  ghost predicate ReachesConstEnum(t: Tree, c: NodeId, x: Option<string>)
    requires IsTree(t) && c < |t.nodes|
  {
    x.Some? && exists m :: IsAliasTarget(t, c, x.value, m) && MayDeclareConstEnum(t, m)
  }

  ghost predicate RefersToValue(t: Tree, c: NodeId, x: Option<string>)
    requires IsTree(t) && c < |t.nodes|
  {
    Unresolved(t, c, x) || exists m :: IsAliasTarget(t, c, x.value, m) && MayInstantiate(t, m)
  }

  /** The const enums that the first statement leads to hide what the second one instantiates, or those of
      the second one hide the import. */
  ghost predicate Hides(t: Tree, first: NodeId, second: NodeId)
    requires IsTree(t)
  {
    || (MayDeclareConstEnum(t, first) && MayInstantiate(t, second))
    || (first < |t.nodes| && t.nodes[first].ImportEqualsDeclaration? && MayDeclareConstEnum(t, second))
  }

  /** In no export list does a name that leads to a const enum stand before another one that may be a value,
      and of two statements of a block with the same name the first does not hide the second, nor the second
      hide the first. */
  ghost predicate Unmixed(t: Tree)
    requires IsTree(t)
  {
    && (forall c, i, j :: 0 <= c < |t.nodes| && t.nodes[c].NamedExports? && 0 <= i < j < |t.nodes[c].specifiers| ==>
          || t.nodes[c].specifiers[i] == t.nodes[c].specifiers[j]
          || !ReachesConstEnum(t, c, t.nodes[c].specifiers[i]) || !RefersToValue(t, c, t.nodes[c].specifiers[j]))
    && (forall p, name, i, j :: 0 <= p < |t.nodes| && IsBlockLike(t.nodes[p]) && 0 <= i < j < |t.nodes[p].statements| ==>
          || !Declares(t, p, name, t.nodes[p].statements[i]) || !Declares(t, p, name, t.nodes[p].statements[j])
          || t.nodes[p].statements[i] == t.nodes[p].statements[j]
          || !Hides(t, t.nodes[p].statements[i], t.nodes[p].statements[j]))
  }

  ghost predicate Asked(t: Tree, q: Question)
    requires IsTree(t)
  {
    q.Anything? || Unmixed(t)
  }

  ghost predicate Later(before: map<NodeId, InstanceState>, after: map<NodeId, InstanceState>) {
    forall k :: k in before ==> k in after && after[k] == before[k]
  }

  lemma ExploredTrans(t: Tree, q: Question, a: set<NodeId>, b: map<NodeId, InstanceState>, c: map<NodeId, InstanceState>)
    requires IsTree(t) && Later(b, c) && a <= b.Keys && Explored(t, q, a, b) && Explored(t, q, b.Keys, c)
    ensures Explored(t, q, a, c)
  {
    hide IsTree, Edge, Hit;
  }

  /** What a name leads to has been visited and is no hit by itself. */
  ghost predicate NameDone(t: Tree, c: NodeId, x: Option<string>, visited: set<NodeId>)
    requires IsTree(t) && c < |t.nodes|
  {
    !Unresolved(t, c, x) && forall m :: IsAliasTarget(t, c, x.value, m) ==> m in visited
  }

  ghost predicate NodeDone(t: Tree, q: Question, n: NodeId, visited: set<NodeId>)
    requires IsTree(t)
  {
    !Hit(t, q, n) && forall m :: Edge(t, n, m) ==> m in visited
  }

  /** The name refers to const enums only. */
  ghost predicate NamesConstEnum(t: Tree, c: NodeId, x: Option<string>)
    requires IsTree(t) && c < |t.nodes|
  {
    x.Some? && AliasBlock(t, c, x.value).Some? && forall s :: IsAliasTarget(t, c, x.value, s) ==> IsConstEnum(t, s)
  }

  /** The first of the exported names refers to const enums only. */
  ghost predicate StartsWithConstEnum(t: Tree, n: NodeId)
    requires IsTree(t)
  {
    && n < |t.nodes| && t.nodes[n].ExportDeclaration? && t.nodes[n].exportClause.Some?
    && |Specifiers(t, n)| > 0 && NamesConstEnum(t, t.nodes[n].exportClause.value, Specifiers(t, n)[0])
  }

  /** A namespace body that is one such export. */
  ghost predicate LoneExport(t: Tree, n: NodeId)
    requires IsTree(t)
  {
    n < |t.nodes| && t.nodes[n].ModuleBlock? && |t.nodes[n].statements| == 1 && StartsWithConstEnum(t, t.nodes[n].statements[0])
  }

  /** A search that is sure to stop at the const enum. */
  ghost predicate Masked(t: Tree, n: NodeId, visited: map<NodeId, InstanceState>)
    requires IsTree(t)
  {
    StartsWithConstEnum(t, n) || (LoneExport(t, n) && t.nodes[n].statements[0] !in visited)
  }

  ghost predicate NameJustified(t: Tree, c: NodeId, x: Option<string>, r: InstanceState)
    requires IsTree(t) && c < |t.nodes|
  {
    && (r.Instantiated? ==> Unresolved(t, c, x) || exists m :: IsAliasTarget(t, c, x.value, m) && MayInstantiate(t, m))
    && (r.ConstEnumOnly? ==> x.Some? && exists m :: IsAliasTarget(t, c, x.value, m) && MayDeclareConstEnum(t, m))
    && (NamesConstEnum(t, c, x) ==> r.ConstEnumOnly?)
  }

  /** The Parent fields from `n` upwards are set. */
  ghost predicate Attached(t: Tree, n: NodeId)
    requires IsTree(t) && n < |t.nodes|
    decreases n
  {
    t.parent[n] == t.up[n] && (t.up[n].Some? ==> Attached(t, t.up[n].value))
  }

  /** The stack of virtual parents of `n`, above which the Parent fields are set. */
  ghost predicate IsStack(t: Tree, n: NodeId, stack: seq<NodeId>)
    requires IsTree(t) && n < |t.nodes|
    decreases |stack|
  {
    if stack == [] then Attached(t, n)
    else
      var p := stack[|stack| - 1];
      t.up[n] == Some(p) && IsStack(t, p, stack[..|stack| - 1])
  }

  lemma ChildOf(t: Tree, n: NodeId, c: NodeId)
    requires IsTree(t) && n < |t.nodes| && c in Children(t.nodes[n])
    ensures c < |t.nodes| && t.up[c] == Some(n)
  {
  }

  lemma PushStack(t: Tree, n: NodeId, p: NodeId, stack: seq<NodeId>)
    requires IsTree(t) && n < |t.nodes| && t.up[n] == Some(p) && IsStack(t, p, stack)
    ensures IsStack(t, n, stack + [p])
  {
    assert (stack + [p])[..|stack|] == stack;
  }

  /** Const enums are never in progress. */
  ghost predicate EnumsClosed(t: Tree, visited: map<NodeId, InstanceState>) {
    forall k :: k in visited && IsConstEnum(t, k) ==> visited[k] != Unknown
  }

  ghost predicate Found(t: Tree, before: map<NodeId, InstanceState>, after: map<NodeId, InstanceState>, r: InstanceState)
    requires IsTree(t)
  {
    && Later(before, after)
    && forall q :: Asked(t, q) && Negative(q, r) ==> Explored(t, q, before.Keys, after)
  }

  lemma FoundNothing(t: Tree, visited: map<NodeId, InstanceState>, r: InstanceState)
    requires IsTree(t)
    ensures Found(t, visited, visited, r)
  {
  }

  lemma FoundTrans(t: Tree, a: map<NodeId, InstanceState>, b: map<NodeId, InstanceState>, c: map<NodeId, InstanceState>,
                   r: InstanceState, r': InstanceState, both: InstanceState)
    requires IsTree(t) && Found(t, a, b, r) && Found(t, b, c, r')
    requires forall q :: Asked(t, q) && Negative(q, both) ==> Negative(q, r) && Negative(q, r')
    ensures Found(t, a, c, both)
  {
    hide IsTree, Explored, Asked;
    forall q | Asked(t, q) && Negative(q, both)
      ensures Explored(t, q, a.Keys, c)
    {
      ExploredTrans(t, q, a.Keys, b, c);
    }
  }

  lemma FinishNode(t: Tree, q: Question, n: NodeId, r: InstanceState,
                   before: map<NodeId, InstanceState>, middle: map<NodeId, InstanceState>, after: map<NodeId, InstanceState>)
    requires IsTree(t) && n !in before && middle == before[n := Unknown] && Later(middle, after)
    requires Explored(t, q, middle.Keys, after) && NodeDone(t, q, n, after.Keys) && Negative(q, r)
    ensures Explored(t, q, before.Keys, after[n := r])
  {
    hide IsTree, Edge, Hit;
  }

  // ----- steps of the search -----

  lemma OpenExport(t: Tree, n: NodeId)
    requires IsTree(t) && n < |t.nodes| && t.nodes[n] == ExportDeclaration(None)
    ensures Instantiates(t, n)
  {
  }

  lemma ClauseOf(t: Tree, n: NodeId)
    requires IsTree(t) && n < |t.nodes| && t.nodes[n].ExportDeclaration? && t.nodes[n].exportClause.Some?
    ensures t.nodes[n].exportClause.value < |t.nodes| && t.nodes[t.nodes[n].exportClause.value].NamedExports?
  {
  }

  lemma StatementOf(t: Tree, p: NodeId, i: nat)
    requires IsTree(t) && p < |t.nodes| && IsBlockLike(t.nodes[p]) && i < |t.nodes[p].statements|
    ensures t.nodes[p].statements[i] < |t.nodes| && t.up[t.nodes[p].statements[i]] == Some(p)
  {
    var s := t.nodes[p].statements[i];
    assert s in Children(t.nodes[p]);
    ChildOf(t, p, s);
  }

  lemma BlockAbove(t: Tree, p: NodeId, name: string)
    requires IsTree(t) && p < |t.nodes| && !exists s :: Declares(t, p, name, s)
    ensures t.up[p].Some? ==> t.up[p].value < p
    ensures BlockFrom(t, p, name) == if t.up[p].None? then None else BlockFrom(t, t.up[p].value, name)
  {
  }

  lemma NotABlock(t: Tree, p: NodeId, name: string)
    requires IsTree(t) && p < |t.nodes| && !IsBlockLike(t.nodes[p])
    ensures !exists s :: Declares(t, p, name, s)
  {
  }

  lemma BlockHere(t: Tree, p: NodeId, name: string, s: NodeId)
    requires IsTree(t) && p < |t.nodes| && Declares(t, p, name, s)
    ensures BlockFrom(t, p, name) == Some(p)
  {
  }

  lemma NameJustifies(t: Tree, n: NodeId, x: Option<string>, r: InstanceState)
    requires IsTree(t) && n < |t.nodes| && t.nodes[n].ExportDeclaration? && t.nodes[n].exportClause.Some?
    requires x in Specifiers(t, n) && NameJustified(t, t.nodes[n].exportClause.value, x, r)
    ensures Justified(t, n, r)
  {
    hide Reaches, IsTree, MayInstantiate, MayDeclareConstEnum, IsAliasTarget, AliasBlock;
    ClauseOf(t, n);
    var c := t.nodes[n].exportClause.value;
    if r.Instantiated? && Unresolved(t, c, x) {
      assert Instantiates(t, n);
      JustifiedHere(t, n, r);
    } else if r.Instantiated? {
      var m :| IsAliasTarget(t, c, x.value, m) && MayInstantiate(t, m);
      JustifiedStep(t, n, m, r);
    } else if r.ConstEnumOnly? {
      var m :| IsAliasTarget(t, c, x.value, m) && MayDeclareConstEnum(t, m);
      JustifiedStep(t, n, m, r);
    }
  }

  function Greater(r: InstanceState, r': InstanceState): InstanceState {
    if Rank(r') > Rank(r) then r' else r
  }

  lemma NameConstEnum(t: Tree, c: NodeId, x: Option<string>, r: InstanceState)
    requires IsTree(t) && c < |t.nodes| && NameJustified(t, c, x, r)
    ensures NamesConstEnum(t, c, x) ==> r == ConstEnumOnly
    ensures r == ConstEnumOnly ==> ReachesConstEnum(t, c, x)
  {
  }

  /** No state is lost unless it is hidden. */
  lemma GreaterNegative(t: Tree, q: Question, r: InstanceState, r': InstanceState)
    requires IsTree(t) && r != Unknown && r' != Unknown && Asked(t, q) && Negative(q, Greater(r, r'))
    requires q.Instantiation? ==> !(r == ConstEnumOnly && r' == Instantiated) && !(r == Instantiated && r' == ConstEnumOnly)
    ensures Negative(q, r) && Negative(q, r')
  {
  }

  lemma NameStays(t: Tree, c: NodeId, x: Option<string>, before: set<NodeId>, after: set<NodeId>)
    requires IsTree(t) && c < |t.nodes| && NameDone(t, c, x, before) && before <= after
    ensures NameDone(t, c, x, after)
  {
    hide IsTree, Unresolved, IsAliasTarget;
  }

  lemma NamesDone(t: Tree, q: Question, n: NodeId, visited: set<NodeId>)
    requires IsTree(t) && n < |t.nodes| && t.nodes[n].ExportDeclaration? && t.nodes[n].exportClause.Some?
    requires forall x :: x in Specifiers(t, n) ==> NameDone(t, t.nodes[n].exportClause.value, x, visited)
    ensures NodeDone(t, q, n, visited)
  {
    hide IsTree, Unresolved, IsAliasTarget;
    ClauseOf(t, n);
    var c := t.nodes[n].exportClause.value;
    forall m | Edge(t, n, m)
      ensures m in visited
    {
      var name :| Some(name) in Specifiers(t, n) && IsAliasTarget(t, c, name, m);
    }
  }

  /** Everything that the name refers to has been visited and does not instantiate. */
  ghost predicate NameSettled(t: Tree, c: NodeId, x: Option<string>, visited: map<NodeId, InstanceState>)
    requires IsTree(t) && c < |t.nodes|
  {
    !Unresolved(t, c, x) && forall m :: IsAliasTarget(t, c, x.value, m) ==> m in visited && visited[m] != Instantiated
  }

  lemma NamesUnmixed(t: Tree, c: NodeId, i: nat, j: nat, r: InstanceState)
    requires IsTree(t) && Unmixed(t) && c < |t.nodes| && t.nodes[c].NamedExports? && i < j < |t.nodes[c].specifiers|
    requires ReachesConstEnum(t, c, t.nodes[c].specifiers[i]) && NameJustified(t, c, t.nodes[c].specifiers[j], r)
    ensures r != Instantiated || t.nodes[c].specifiers[i] == t.nodes[c].specifiers[j]
  {
    hide IsTree, IsAliasTarget, Unresolved, MayInstantiate, Hides;
  }

  lemma StatementsUnmixed(t: Tree, p: NodeId, name: string, i: nat, j: nat)
    requires IsTree(t) && Unmixed(t) && p < |t.nodes| && IsBlockLike(t.nodes[p]) && i < j < |t.nodes[p].statements|
    requires Declares(t, p, name, t.nodes[p].statements[i]) && Declares(t, p, name, t.nodes[p].statements[j])
    ensures t.nodes[p].statements[i] == t.nodes[p].statements[j]
         || !Hides(t, t.nodes[p].statements[i], t.nodes[p].statements[j])
  {
    hide IsTree, Hides, Declares, ReachesConstEnum, RefersToValue;
  }

  /** What the search of a block for a name has found in its first statements. */
  ghost predicate FoundSoFar(t: Tree, p: NodeId, name: string, i: nat, found: InstanceState,
                             before: map<NodeId, InstanceState>, visited: map<NodeId, InstanceState>)
    requires IsTree(t) && p < |t.nodes| && IsBlockLike(t.nodes[p]) && i <= |t.nodes[p].statements|
  {
    var ss := t.nodes[p].statements;
    && (found == Unknown <==> forall j :: 0 <= j < i ==> !Declares(t, p, name, ss[j]))
    && (forall q, j :: Asked(t, q) && Negative(q, found) && 0 <= j < i && Declares(t, p, name, ss[j]) ==>
          ss[j] in visited && !t.nodes[ss[j]].ImportEqualsDeclaration? && (q.Instantiation? ==> visited[ss[j]] != Instantiated))
    && (StatementsSettled(t, p, name, before) ==> found != Instantiated)
    && (found.ConstEnumOnly? ==> exists j ::
          0 <= j < i && Declares(t, p, name, ss[j]) && MayDeclareConstEnum(t, ss[j]) && ss[j] in visited)
    && (found.Instantiated? ==> exists j ::
          0 <= j < i && Declares(t, p, name, ss[j]) && t.nodes[ss[j]].ImportEqualsDeclaration?)
    && (found != Unknown && (forall s: NodeId :: Declares(t, p, name, s) ==> IsConstEnum(t, s)) ==> found == ConstEnumOnly)
  }

  lemma NothingFound(t: Tree, p: NodeId, name: string, visited: map<NodeId, InstanceState>)
    requires IsTree(t) && p < |t.nodes| && IsBlockLike(t.nodes[p])
    ensures FoundSoFar(t, p, name, 0, Unknown, visited, visited)
  {
  }

  lemma OtherName(t: Tree, p: NodeId, name: string, i: nat, found: InstanceState, before: map<NodeId, InstanceState>,
                  visited: map<NodeId, InstanceState>)
    requires IsTree(t) && p < |t.nodes| && IsBlockLike(t.nodes[p]) && i < |t.nodes[p].statements|
    requires FoundSoFar(t, p, name, i, found, before, visited) && !Declares(t, p, name, t.nodes[p].statements[i])
    ensures FoundSoFar(t, p, name, i + 1, found, before, visited)
  {
    hide IsTree, Declares, Unmixed, StatementsSettled, MayDeclareConstEnum;
  }

  /** What has been found so far is not hidden by the next statement, nor hides it. */
  lemma NothingHidden(t: Tree, p: NodeId, name: string, i: nat, found: InstanceState, state: InstanceState,
                      before: map<NodeId, InstanceState>, visited: map<NodeId, InstanceState>)
    requires IsTree(t) && Unmixed(t) && p < |t.nodes| && IsBlockLike(t.nodes[p]) && i < |t.nodes[p].statements|
    requires Declares(t, p, name, t.nodes[p].statements[i]) && Justified(t, t.nodes[p].statements[i], state)
    requires !t.nodes[t.nodes[p].statements[i]].ImportEqualsDeclaration?
    requires FoundSoFar(t, p, name, i, found, before, visited)
    requires t.nodes[p].statements[i] in visited && visited[t.nodes[p].statements[i]] != Instantiated ==> state != Instantiated
    ensures !(found == ConstEnumOnly && state == Instantiated) && !(found == Instantiated && state == ConstEnumOnly)
  {
    hide IsTree, Unmixed, MayInstantiate, MayDeclareConstEnum, StatementsSettled;
    var ss := t.nodes[p].statements;
    if found.ConstEnumOnly? {
      var j :| 0 <= j < i && Declares(t, p, name, ss[j]) && MayDeclareConstEnum(t, ss[j]) && ss[j] in visited;
      assert Asked(t, Instantiation) && Negative(Instantiation, found);
      StatementsUnmixed(t, p, name, j, i);
    } else if found.Instantiated? {
      var j :| 0 <= j < i && Declares(t, p, name, ss[j]) && t.nodes[ss[j]].ImportEqualsDeclaration?;
      StatementsUnmixed(t, p, name, j, i);
    }
  }

  /** The next statement with the name, in state `state`. */
  lemma NextStatement(t: Tree, p: NodeId, name: string, i: nat, found: InstanceState, state: InstanceState,
                      before: map<NodeId, InstanceState>, middle: map<NodeId, InstanceState>, visited: map<NodeId, InstanceState>)
    requires IsTree(t) && p < |t.nodes| && IsBlockLike(t.nodes[p]) && i < |t.nodes[p].statements|
    requires FoundSoFar(t, p, name, i, found, before, middle) && Later(before, middle) && Later(middle, visited)
    requires var s := t.nodes[p].statements[i];
             && Declares(t, p, name, s) && Justified(t, s, state) && state != Unknown && s in visited
             && (visited[s] == state || (visited[s] == Unknown && state == NonInstantiated))
    ensures var now := if found == Unknown then state else Greater(found, state);
            var last := if t.nodes[t.nodes[p].statements[i]].ImportEqualsDeclaration? then Instantiated else now;
            && (now != Instantiated ==> FoundSoFar(t, p, name, i + 1, last, before, visited))
            && (forall q :: Asked(t, q) && Negative(q, last) ==> (found == Unknown || Negative(q, found)) && Negative(q, state))
            && (now == Instantiated ==> !StatementsSettled(t, p, name, before))
            && (now == Instantiated ==> exists s: NodeId ::
                  && Declares(t, p, name, s) && !IsConstEnum(t, s)
                  && (t.nodes[s].ImportEqualsDeclaration? || MayInstantiate(t, s)))
  {
    hide IsTree, Unmixed, MayDeclareConstEnum, MayInstantiate;
    var s := t.nodes[p].statements[i];
    var now := if found == Unknown then state else Greater(found, state);
    var last := if t.nodes[s].ImportEqualsDeclaration? then Instantiated else now;
    forall q | Asked(t, q) && Negative(q, last)
      ensures (found == Unknown || Negative(q, found)) && Negative(q, state)
    {
      if found != Unknown {
        if q.Instantiation? {
          NothingHidden(t, p, name, i, found, state, before, middle);
        }
        GreaterNegative(t, q, found, state);
      }
    }
    if now != Instantiated {
      FoundNext(t, p, name, i, found, state, before, middle, visited, now, last);
    }
  }

  lemma FoundNext(t: Tree, p: NodeId, name: string, i: nat, found: InstanceState, state: InstanceState,
                  before: map<NodeId, InstanceState>, middle: map<NodeId, InstanceState>, visited: map<NodeId, InstanceState>,
                  now: InstanceState, last: InstanceState)
    requires IsTree(t) && p < |t.nodes| && IsBlockLike(t.nodes[p]) && i < |t.nodes[p].statements|
    requires FoundSoFar(t, p, name, i, found, before, middle) && Later(before, middle) && Later(middle, visited)
    requires var s := t.nodes[p].statements[i];
             && Declares(t, p, name, s) && Justified(t, s, state) && state != Unknown && s in visited
             && (visited[s] == state || (visited[s] == Unknown && state == NonInstantiated))
             && last == (if t.nodes[s].ImportEqualsDeclaration? then Instantiated else now)
    requires now == (if found == Unknown then state else Greater(found, state)) && now != Instantiated
    requires forall q :: Asked(t, q) && Negative(q, last) ==> (found == Unknown || Negative(q, found)) && Negative(q, state)
    ensures FoundSoFar(t, p, name, i + 1, last, before, visited)
  {
    hide IsTree, Unmixed, MayDeclareConstEnum, MayInstantiate;
    var ss := t.nodes[p].statements;
    forall q, j | Asked(t, q) && Negative(q, last) && 0 <= j < i + 1 && Declares(t, p, name, ss[j])
      ensures ss[j] in visited && !t.nodes[ss[j]].ImportEqualsDeclaration?
      ensures q.Instantiation? ==> visited[ss[j]] != Instantiated
    {
      if j < i {
        assert found != Unknown && Negative(q, found);
        assert ss[j] in middle && visited[ss[j]] == middle[ss[j]];
      }
    }
    if last.ConstEnumOnly? {
      if state.ConstEnumOnly? {
        assert Declares(t, p, name, ss[i]) && MayDeclareConstEnum(t, ss[i]);
      } else {
        var j :| 0 <= j < i && Declares(t, p, name, ss[j]) && MayDeclareConstEnum(t, ss[j]) && ss[j] in middle;
        assert ss[j] in visited;
      }
    }
  }

  /** What has been found in all statements. */
  lemma AllFound(t: Tree, p: NodeId, name: string, found: InstanceState, before: map<NodeId, InstanceState>,
                 visited: map<NodeId, InstanceState>)
    requires IsTree(t) && p < |t.nodes| && IsBlockLike(t.nodes[p])
    requires FoundSoFar(t, p, name, |t.nodes[p].statements|, found, before, visited)
    ensures found == Unknown <==> !exists s :: Declares(t, p, name, s)
    ensures forall q, s: NodeId :: Asked(t, q) && Negative(q, found) && Declares(t, p, name, s) ==>
              s in visited && !t.nodes[s].ImportEqualsDeclaration?
    ensures Asked(t, Instantiation) && found != Unknown && found != Instantiated ==> StatementsSettled(t, p, name, visited)
    ensures StatementsSettled(t, p, name, before) ==> found != Instantiated
    ensures found.Instantiated? ==> exists s: NodeId :: Declares(t, p, name, s) && t.nodes[s].ImportEqualsDeclaration?
    ensures found.ConstEnumOnly? ==> exists s: NodeId :: Declares(t, p, name, s) && MayDeclareConstEnum(t, s)
    ensures found != Unknown && (forall s: NodeId :: Declares(t, p, name, s) ==> IsConstEnum(t, s)) ==> found == ConstEnumOnly
  {
    hide IsTree, Unmixed, MayDeclareConstEnum, IsConstEnum;
    assert forall s: NodeId :: Declares(t, p, name, s) ==> s in t.nodes[p].statements;
    if Asked(t, Instantiation) && found != Unknown && found != Instantiated {
      assert Negative(Instantiation, found);
    }
  }

  lemma TargetsHere(t: Tree, c: NodeId, name: string, p: NodeId, visited: set<NodeId>)
    requires IsTree(t) && c < |t.nodes| && AliasBlock(t, c, name) == Some(p)
    requires forall s: NodeId :: Declares(t, p, name, s) ==> s in visited && !t.nodes[s].ImportEqualsDeclaration?
    ensures NameDone(t, c, Some(name), visited)
  {
  }

  lemma TargetsSettled(t: Tree, c: NodeId, name: string, p: NodeId, visited: map<NodeId, InstanceState>)
    requires IsTree(t) && c < |t.nodes| && AliasBlock(t, c, name) == Some(p)
    ensures NameSettled(t, c, Some(name), visited) <==> StatementsSettled(t, p, name, visited)
  {
  }

  ghost predicate StatementsSettled(t: Tree, p: NodeId, name: string, visited: map<NodeId, InstanceState>) {
    forall s: NodeId :: Declares(t, p, name, s) ==>
      s in visited && visited[s] != Instantiated && !t.nodes[s].ImportEqualsDeclaration?
  }

  lemma OpenNode(t: Tree, visited: map<NodeId, InstanceState>, n: NodeId)
    requires EnumsClosed(t, visited)
    ensures IsConstEnum(t, n) || EnumsClosed(t, visited[n := Unknown])
  {
  }

  lemma ClosedNode(t: Tree, visited: map<NodeId, InstanceState>, n: NodeId)
    requires EnumsClosed(t, visited) && n in visited && visited[n] == Unknown
    ensures !IsConstEnum(t, n)
  {
  }

  lemma CloseNode(t: Tree, before: map<NodeId, InstanceState>, after: map<NodeId, InstanceState>, n: NodeId,
                  r: InstanceState)
    requires EnumsClosed(t, before) && r != Unknown
    requires (IsConstEnum(t, n) && after == before[n := Unknown]) || EnumsClosed(t, after)
    ensures EnumsClosed(t, after[n := r])
  {
  }

  lemma LoneNotSelf(t: Tree, n: NodeId)
    requires IsTree(t)
    ensures LoneExport(t, n) ==> t.nodes[n].statements[0] != n
  {
  }

  class InstanceSearch {
    const t: Tree
    var visited: map<NodeId, InstanceState>

    ghost predicate Sound()
      reads this
    {
      JustifiedSoFar() && EnumsClosed(t, visited)
    }

    ghost predicate JustifiedSoFar()
      reads this
    {
      IsTree(t) && forall k :: k in visited ==> k < |t.nodes| && Justified(t, k, visited[k])
    }

    ghost function Unvisited(): set<NodeId>
      reads this
    {
      set k: NodeId | k < |t.nodes| && k !in visited
    }

    /** What every part of the search promises about the nodes it has visited. */
    ghost predicate Searched(before: map<NodeId, InstanceState>, r: InstanceState)
      reads this
    {
      Sound() && Found(t, before, visited, r)
    }

    constructor (t: Tree)
      ensures this.t == t && visited == map[]
    {
      this.t, visited := t, map[];
    }

    method PopAncestor(ancestors: seq<NodeId>, n: NodeId) returns (rest: seq<NodeId>, p: Option<NodeId>)
      requires IsTree(t) && n < |t.nodes| && IsStack(t, n, ancestors)
      ensures p == t.up[n] && (p.Some? ==> p.value < |t.nodes|)
      ensures p.Some? ==> IsStack(t, p.value, rest)
    {
      if |ancestors| == 0 {
        return [], t.parent[n];
      }
      return ancestors[..|ancestors| - 1], Some(ancestors[|ancestors| - 1]);
    }

    method Cached(n: NodeId, ancestors: seq<NodeId>) returns (r: InstanceState)
      requires Sound() && n < |t.nodes| && IsStack(t, n, ancestors)
      modifies this`visited
      ensures r != Unknown && n in visited && Justified(t, n, r) && Searched(old(visited), r)
      ensures visited[n] == r || (visited[n] == Unknown && r == NonInstantiated)
      ensures n !in old(visited) && Masked(t, n, old(visited)) ==> r == ConstEnumOnly
      decreases Unvisited(), 0
    {
      hide IsTree, Justified, NodeDone, Hit, Edge, IsStack, IsConstEnum, StartsWithConstEnum, EnumsClosed;
      if n in visited {
        FoundNothing(t, visited, NonInstantiated);
        if visited[n] != Unknown {
          return visited[n];
        }
        assert !IsConstEnum(t, n) by { ClosedNode(t, visited, n); }
        JustifiedHere(t, n, NonInstantiated);
        return NonInstantiated;
      }
      visited := visited[n := Unknown];
      JustifiedHere(t, n, Unknown);
      assert IsConstEnum(t, n) || EnumsClosed(t, visited) by { OpenNode(t, old(visited), n); }
      LoneNotSelf(t, n);
      assert n in old(Unvisited()) && n !in Unvisited() && Unvisited() <= old(Unvisited());
      ghost var middle := visited;
      r := Worker(n, ancestors);
      ghost var after := visited;
      visited := visited[n := r];
      CloseNode(t, old(visited), after, n, r);
      forall q | Asked(t, q) && Negative(q, r)
        ensures Explored(t, q, old(visited).Keys, visited)
      {
        FinishNode(t, q, n, r, old(visited), middle, after);
      }
    }

    method Worker(n: NodeId, ancestors: seq<NodeId>) returns (r: InstanceState)
      requires JustifiedSoFar() && (IsConstEnum(t, n) || EnumsClosed(t, visited)) && n < |t.nodes| && IsStack(t, n, ancestors)
      modifies this`visited
      ensures r != Unknown && Justified(t, n, r) && JustifiedSoFar() && Found(t, old(visited), visited, r)
      ensures (IsConstEnum(t, n) && visited == old(visited)) || EnumsClosed(t, visited)
      ensures forall q :: Asked(t, q) && Negative(q, r) ==> NodeDone(t, q, n, visited.Keys)
      ensures Masked(t, n, old(visited)) ==> r == ConstEnumOnly
      decreases Unvisited(), 5
    {
      hide IsTree, Justified, IsStack, EnumsClosed;
      match t.nodes[n] {
        case ModuleBlock(_) => r := BlockState(n, ancestors);
        case ModuleDeclaration(_, _) => r := ModuleState(n, ancestors);
        case ExportDeclaration(_) => r := ExportState(n, ancestors);
        case TypeDeclaration(_) => r := NonInstantiated;
        case EnumDeclaration(_, isConst) => r := if isConst then ConstEnumOnly else Instantiated;
        case ImportDeclaration(exported) => r := if exported then Instantiated else NonInstantiated;
        case ImportEqualsDeclaration(_, exported) => r := if exported then Instantiated else NonInstantiated;
        case _ => r := Instantiated;
      }
      if !(t.nodes[n].ModuleBlock? || t.nodes[n].ModuleDeclaration? || t.nodes[n].ExportDeclaration?) {
        JustifiedHere(t, n, r);
      }
    }

    method ModuleState(n: NodeId, ancestors: seq<NodeId>) returns (r: InstanceState)
      requires Sound() && n < |t.nodes| && IsStack(t, n, ancestors) && t.nodes[n].ModuleDeclaration?
      modifies this`visited
      ensures r != Unknown && Justified(t, n, r) && Searched(old(visited), r)
      ensures forall q :: Asked(t, q) && Negative(q, r) ==> NodeDone(t, q, n, visited.Keys)
      ensures var b := t.nodes[n].body;
              b.Some? && b.value !in old(visited) && LoneExport(t, b.value) && t.nodes[b.value].statements[0] !in old(visited) ==>
                r == ConstEnumOnly
      decreases Unvisited(), 4
    {
      hide IsStack, StartsWithConstEnum, MayInstantiate, MayDeclareConstEnum;
      var body := t.nodes[n].body;
      if body.None? {
        JustifiedHere(t, n, Instantiated);
        return Instantiated;
      }
      assert body.value in Children(t.nodes[n]);
      ChildOf(t, n, body.value);
      PushStack(t, body.value, n, ancestors);
      r := Cached(body.value, ancestors + [n]);
      JustifiedStep(t, n, body.value, r);
    }

    method BlockState(n: NodeId, ancestors: seq<NodeId>) returns (r: InstanceState)
      requires Sound() && n < |t.nodes| && IsStack(t, n, ancestors) && t.nodes[n].ModuleBlock?
      modifies this`visited
      ensures r != Unknown && Justified(t, n, r) && Searched(old(visited), r)
      ensures forall q :: Asked(t, q) && Negative(q, r) ==> NodeDone(t, q, n, visited.Keys)
      ensures Masked(t, n, old(visited)) ==> r == ConstEnumOnly
      decreases Unvisited(), 4
    {
      hide IsTree, IsStack, Explored, EnumsClosed, MayInstantiate, MayDeclareConstEnum;
      var ss := t.nodes[n].statements;
      r := NonInstantiated;
      JustifiedHere(t, n, r);
      FoundNothing(t, visited, r);
      var i := 0;
      while i < |ss|
        invariant 0 <= i <= |ss| && r != Unknown && r != Instantiated && Justified(t, n, r)
        invariant Searched(old(visited), r) && forall j :: 0 <= j < i ==> ss[j] in visited
        invariant Unvisited() <= old(Unvisited())
        invariant i == 0 ==> visited == old(visited)
        invariant i > 0 && Masked(t, n, old(visited)) ==> r == ConstEnumOnly
      {
        ghost var before, soFar := visited, r;
        assert ss[i] in Children(t.nodes[n]);
        ChildOf(t, n, ss[i]);
        PushStack(t, ss[i], n, ancestors);
        var childState := Cached(ss[i], ancestors + [n]);
        if childState != NonInstantiated {
          r := childState;
          JustifiedStep(t, n, ss[i], r);
        }
        FoundTrans(t, old(visited), before, visited, soFar, childState, r);
        if r == Instantiated {
          return;
        }
        i := i + 1;
      }
    }

    /** The state of an export list is the greatest of those of its names. */
    method ExportState(n: NodeId, ancestors: seq<NodeId>) returns (r: InstanceState)
      requires Sound() && n < |t.nodes| && IsStack(t, n, ancestors) && t.nodes[n].ExportDeclaration?
      modifies this`visited
      ensures r != Unknown && Justified(t, n, r) && Searched(old(visited), r)
      ensures forall q :: Asked(t, q) && Negative(q, r) ==> NodeDone(t, q, n, visited.Keys)
      ensures StartsWithConstEnum(t, n) ==> r == ConstEnumOnly
      decreases Unvisited(), 4
    {
      hide IsTree, Justified, IsStack, Explored, NodeDone, NameDone, NameJustified, NamesConstEnum, Instantiates,
           Unmixed, EnumsClosed;
      var clause := t.nodes[n].exportClause;
      if clause.None? {
        assert Instantiates(t, n) by { OpenExport(t, n); }
        JustifiedHere(t, n, Instantiated);
        return Instantiated;
      }
      var c := clause.value;
      assert c in Children(t.nodes[n]);
      ChildOf(t, n, c);
      ClauseOf(t, n);
      PushStack(t, c, n, ancestors);
      var names := t.nodes[c].specifiers;
      r := NonInstantiated;
      JustifiedHere(t, n, r);
      FoundNothing(t, visited, r);
      var i := 0;
      while i < |names|
        invariant 0 <= i <= |names| && r != Unknown && r != Instantiated && Justified(t, n, r)
        invariant i == 0 ==> r == NonInstantiated
        invariant i > 0 && StartsWithConstEnum(t, n) ==> r == ConstEnumOnly
        invariant Searched(old(visited), r) && Unvisited() <= old(Unvisited())
        invariant forall q, j :: Asked(t, q) && Negative(q, r) && 0 <= j < i ==> NameDone(t, c, names[j], visited.Keys)
        invariant r.ConstEnumOnly? ==> exists j :: 0 <= j < i && ReachesConstEnum(t, c, names[j])
        invariant Asked(t, Instantiation) ==> forall j :: 0 <= j < i ==> NameSettled(t, c, names[j], visited)
      {
        ghost var before, soFar := visited, r;
        var specifierState := AliasTargetState(c, names[i], ancestors + [n]);
        assert names[i] in Specifiers(t, n);
        NameConstEnum(t, c, names[i], specifierState);
        NameJustifies(t, n, names[i], specifierState);
        if Rank(specifierState) > Rank(r) {
          r := specifierState;
        }
        forall q | Asked(t, q) && Negative(q, r)
          ensures Negative(q, soFar) && Negative(q, specifierState)
        {
          if q.Instantiation? && soFar == ConstEnumOnly {
            var j :| 0 <= j < i && ReachesConstEnum(t, c, names[j]);
            NamesUnmixed(t, c, j, i, specifierState);
          }
          GreaterNegative(t, q, soFar, specifierState);
        }
        FoundTrans(t, old(visited), before, visited, soFar, specifierState, r);
        forall q, j | Asked(t, q) && Negative(q, r) && 0 <= j <= i
          ensures NameDone(t, c, names[j], visited.Keys)
        {
          if j < i {
            NameStays(t, c, names[j], before.Keys, visited.Keys);
          }
        }
        if r == Instantiated {
          return;
        }
        i := i + 1;
      }
      forall q | Asked(t, q) && Negative(q, r)
        ensures NodeDone(t, q, n, visited.Keys)
      {
        NamesDone(t, q, n, visited.Keys);
      }
    }

    /** Looks outwards for the statements with the exported name. */
    method AliasTargetState(c: NodeId, x: Option<string>, ancestors: seq<NodeId>) returns (r: InstanceState)
      requires Sound() && c < |t.nodes| && IsStack(t, c, ancestors)
      modifies this`visited
      ensures r != Unknown && NameJustified(t, c, x, r) && Searched(old(visited), r)
      ensures forall q :: Asked(t, q) && Negative(q, r) ==> NameDone(t, c, x, visited.Keys)
      ensures Asked(t, Instantiation) && r != Instantiated ==> NameSettled(t, c, x, visited)
      ensures NameSettled(t, c, x, old(visited)) ==> r != Instantiated
      decreases Unvisited(), 3
    {
      hide Explored, Asked, IsTree, IsStack, Justified, Declares, EnumsClosed, IsConstEnum;
      FoundNothing(t, visited, Instantiated);
      if x.None? {
        return Instantiated;
      }
      var stack: seq<NodeId>, p: Option<NodeId> := PopAncestor(ancestors, c);
      while p.Some?
        invariant p.Some? ==> p.value < |t.nodes| && IsStack(t, p.value, stack)
        invariant AliasBlock(t, c, x.value) == if p.None? then None else BlockFrom(t, p.value, x.value)
        invariant visited == old(visited)
        decreases if p.Some? then p.value + 1 else 0
      {
        if IsBlockLike(t.nodes[p.value]) {
          r := StatementsState(p.value, x.value, stack);
          if r != Unknown {
            ghost var s :| Declares(t, p.value, x.value, s);
            BlockHere(t, p.value, x.value, s);
            forall q | Asked(t, q) && Negative(q, r)
              ensures NameDone(t, c, x, visited.Keys)
            {
              TargetsHere(t, c, x.value, p.value, visited.Keys);
            }
            TargetsSettled(t, c, x.value, p.value, old(visited));
            TargetsSettled(t, c, x.value, p.value, visited);
            return;
          }
        } else {
          NotABlock(t, p.value, x.value);
        }
        BlockAbove(t, p.value, x.value);
        stack, p := PopAncestor(stack, p.value);
      }
      return Instantiated;
    }

    /** The greatest state of the statements of a block that have the name. */
    method StatementsState(p: NodeId, name: string, stack: seq<NodeId>) returns (found: InstanceState)
      requires Sound() && p < |t.nodes| && IsStack(t, p, stack) && IsBlockLike(t.nodes[p])
      modifies this`visited
      ensures found == Unknown <==> !exists s :: Declares(t, p, name, s)
      ensures found == Unknown ==> visited == old(visited)
      ensures found != Unknown ==> Searched(old(visited), found)
      ensures forall q, s: NodeId :: Asked(t, q) && Negative(q, found) && Declares(t, p, name, s) ==>
        s in visited && !t.nodes[s].ImportEqualsDeclaration?
      ensures Asked(t, Instantiation) && found != Unknown && found != Instantiated ==> StatementsSettled(t, p, name, visited)
      ensures StatementsSettled(t, p, name, old(visited)) ==> found != Instantiated
      ensures found.Instantiated? ==>
        exists s: NodeId :: Declares(t, p, name, s) && (t.nodes[s].ImportEqualsDeclaration? || MayInstantiate(t, s))
      ensures found.ConstEnumOnly? ==> exists s: NodeId :: Declares(t, p, name, s) && MayDeclareConstEnum(t, s)
      ensures found != Unknown && (forall s: NodeId :: Declares(t, p, name, s) ==> IsConstEnum(t, s)) ==> found == ConstEnumOnly
      decreases Unvisited(), 2
    {
      hide Explored, IsTree, IsStack, MayInstantiate, MayDeclareConstEnum, EnumsClosed, FoundSoFar, Unmixed, Justified,
           StatementsSettled, Asked, IsConstEnum;
      var ss := t.nodes[p].statements;
      found := Unknown;
      NothingFound(t, p, name, visited);
      FoundNothing(t, visited, Unknown);
      var i := 0;
      while i < |ss|
        invariant 0 <= i <= |ss| && Sound() && Unvisited() <= old(Unvisited())
        invariant FoundSoFar(t, p, name, i, found, old(visited), visited)
        invariant if found == Unknown then visited == old(visited) else Searched(old(visited), found)
      {
        StatementOf(t, p, i);
        if NodeHasName(t.nodes[ss[i]], name) {
          ghost var before, soFar := visited, found;
          PushStack(t, ss[i], p, stack);
          var state := Cached(ss[i], stack + [p]);
          NextStatement(t, p, name, i, soFar, state, old(visited), before, visited);
          if found == Unknown || Rank(state) > Rank(found) {
            found := state;
          }
          ghost var last := if t.nodes[ss[i]].ImportEqualsDeclaration? then Instantiated else found;
          if soFar != Unknown {
            FoundTrans(t, old(visited), before, visited, soFar, state, last);
          }
          if found == Instantiated {
            return;
          }
          if t.nodes[ss[i]].ImportEqualsDeclaration? {
            found := Instantiated;
          }
        } else {
          OtherName(t, p, name, i, found, old(visited), visited);
        }
        i := i + 1;
      }
      AllFound(t, p, name, found, old(visited), visited);
    }
  }

  // ----- the answer -----

  lemma {:induction false} PathVisited(t: Tree, q: Question, root: NodeId, visited: map<NodeId, InstanceState>,
                                       path: seq<NodeId>, i: nat)
    requires IsTree(t) && Explored(t, q, {}, visited) && NodeDone(t, q, root, visited.Keys)
    requires IsPath(t, path) && i < |path| && path[0] == root
    ensures i == 0 || path[i] in visited
  {
    hide IsTree, Edge, Hit;
    if i > 0 {
      PathVisited(t, q, root, visited, path, i - 1);
      assert Edge(t, path[i - 1], path[i - 1 + 1]);
    }
  }

  lemma NothingReached(t: Tree, q: Question, root: NodeId, visited: map<NodeId, InstanceState>, m: NodeId)
    requires IsTree(t) && Explored(t, q, {}, visited) && NodeDone(t, q, root, visited.Keys) && Reaches(t, root, m)
    ensures !Hit(t, q, m)
  {
    hide IsTree, Edge, Hit;
    var path :| |path| > 0 && path[0] == root && path[|path| - 1] == m && IsPath(t, path);
    PathVisited(t, q, root, visited, path, |path| - 1);
  }

  /** The state of a namespace. It is "not instantiated" exactly if nothing that the namespace reaches
      instantiates or is a const enum, whatever cycles there are. "Instantiated" and "const enums only" each
      have a reason. Unless a const enum hides a value, the answer is "instantiated" exactly if something
      reached instantiates; in general it is not, since the number of "const enums only" is the greatest. */
  method GetModuleInstanceState(t: Tree, root: NodeId) returns (r: InstanceState)
    requires IsTree(t) && root < |t.nodes| && t.nodes[root].ModuleDeclaration? && Attached(t, root)
    ensures r != Unknown
    ensures r == NonInstantiated <==> !MayInstantiate(t, root) && !MayDeclareConstEnum(t, root)
    ensures r == Instantiated ==> MayInstantiate(t, root)
    ensures r == ConstEnumOnly ==> MayDeclareConstEnum(t, root)
    ensures Unmixed(t) ==> (r == Instantiated <==> MayInstantiate(t, root))
    ensures t.nodes[root].body.Some? && LoneExport(t, t.nodes[root].body.value) ==> r == ConstEnumOnly
  {
    hide IsTree, Explored, NodeDone, Unmixed, Reaches, Instantiates, IsConstEnum, LoneExport, EnumsClosed;
    var search := new InstanceSearch(t);
    assert search.Sound() by { NothingVisited(t); }
    assert search.visited.Keys == {};
    r := search.ModuleState(root, []);
    forall q, m | Asked(t, q) && Negative(q, r) && Reaches(t, root, m)
      ensures !Hit(t, q, m)
    {
      NothingReached(t, q, root, search.visited, m);
    }
    assert Asked(t, Anything);
    assert Unmixed(t) ==> Asked(t, Instantiation);
  }

  lemma NothingVisited(t: Tree)
    ensures EnumsClosed(t, map[])
  {
  }

  // ----- a const enum hides what follows it -----

  /** `const enum E {}  function f() {}  namespace M { export { E, f } }` */
  ghost predicate IsMixedExport(t: Tree) {
    && |t.nodes| == |t.up| == |t.parent| == 7
    && t.nodes[0] == SourceFile([1, 2, 3]) && t.up[0] == t.parent[0] == None
    && t.nodes[1] == EnumDeclaration("E", true) && t.up[1] == t.parent[1] == Some(0)
    && t.nodes[2] == Declaration("f") && t.up[2] == t.parent[2] == Some(0)
    && t.nodes[3] == ModuleDeclaration("M", Some(4)) && t.up[3] == t.parent[3] == Some(0)
    && t.nodes[4] == ModuleBlock([5]) && t.up[4] == t.parent[4] == Some(3)
    && t.nodes[5] == ExportDeclaration(Some(6)) && t.up[5] == t.parent[5] == Some(4)
    && t.nodes[6] == NamedExports([Some("E"), Some("f")]) && t.up[6] == t.parent[6] == Some(5)
  }

  lemma MixedExportIsTree(t: Tree)
    requires IsMixedExport(t)
    ensures IsTree(t)
  {
    forall n, c | 0 <= n < |t.nodes| && c in Children(t.nodes[n])
      ensures n < c < |t.nodes| && t.up[c] == Some(n)
    {
      MixedExportChild(t, n, c);
    }
    forall n | 0 <= n < |t.nodes| && t.up[n].Some?
      ensures t.up[n].value < n
    {
      assert n == 1 || n == 2 || n == 3 || n == 4 || n == 5 || n == 6;
    }
    forall n | 0 <= n < |t.nodes| && t.nodes[n].ExportDeclaration?
      ensures n == 5
    {
    }
  }

  lemma MixedExportChild(t: Tree, n: NodeId, c: NodeId)
    requires IsMixedExport(t) && n < |t.nodes| && c in Children(t.nodes[n])
    ensures n < c < |t.nodes| && t.up[c] == Some(n)
  {
  }

  lemma MixedExportBlock(t: Tree, name: string)
    requires IsMixedExport(t) && IsTree(t) && (name == "E" || name == "f")
    ensures AliasBlock(t, 6, name) == Some(0)
  {
    hide IsTree;
    assert Declares(t, 0, name, if name == "E" then 1 else 2);
    BlockHere(t, 0, name, if name == "E" then 1 else 2);
    NotABlock(t, 5, name);
    BlockAbove(t, 5, name);
    assert !exists s :: Declares(t, 4, name, s);
    BlockAbove(t, 4, name);
    NotABlock(t, 3, name);
    BlockAbove(t, 3, name);
  }

  lemma MixedExportReaches(t: Tree)
    requires IsMixedExport(t) && IsTree(t)
    ensures MayInstantiate(t, 3)
  {
    hide IsTree, BlockFrom;
    MixedExportBlock(t, "f");
    assert Some("f") in Specifiers(t, 5) && IsAliasTarget(t, 6, "f", 2);
    ReachesSelf(t, 2);
    ReachesStep(t, 5, 2, 2);
    ReachesStep(t, 4, 5, 2);
    ReachesStep(t, 3, 4, 2);
    assert Instantiates(t, 2);
  }

  lemma MixedExportMasked(t: Tree)
    requires IsMixedExport(t) && IsTree(t)
    ensures LoneExport(t, 4)
  {
    hide IsTree, BlockFrom;
    MixedExportBlock(t, "E");
  }

  method MixedExportState(t: Tree) returns (r: InstanceState)
    requires IsMixedExport(t)
    ensures IsTree(t) && r == ConstEnumOnly && MayInstantiate(t, 3)
  {
    hide IsTree, MayInstantiate, MayDeclareConstEnum, Unmixed, LoneExport;
    MixedExportIsTree(t);
    MixedExportReaches(t);
    MixedExportMasked(t);
    r := GetModuleInstanceState(t, 3);
  }
}
