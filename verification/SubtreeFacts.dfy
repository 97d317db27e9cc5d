/** The facts about the subtree of a node, cached on the node by whichever thread computes them first or
    again: the loads and stores of all threads may fall in any order. */
module SubtreeFacts {

  datatype Fact =
    | TypeScript | Jsx | ESNext | ES2022 | ES2021 | ES2020 | ES2019 | ES2018 | ES2017 | ES2016
    | LexicalThis | LexicalSuper | Rest | ObjectRestOrSpread | Await | DynamicImport | ClassFields
    | Decorators | Identifier
    | Computed // not a fact: marks a cached value as there

  type Facts = set<Fact>

  type NodeId = nat

  /** `own` are the facts of the node itself, `exclusions` what it does not pass on to its parent. */
  datatype Node = Node(own: Facts, exclusions: Facts, children: seq<NodeId>)

  type Tree = seq<Node>

  /** Children come after their parents, and no node passes the mark on. */
  ghost predicate IsTree(t: Tree) {
    forall n :: 0 <= n < |t| ==> Computed !in t[n].own && Computed in t[n].exclusions && forall c :: c in t[n].children ==> n < c < |t|
  }

  // ----- without a cache -----

  function FactsOf(t: Tree, n: NodeId): (r: Facts)
    requires IsTree(t) && n < |t|
    ensures Computed !in r
    decreases |t| - n, 1, 0
  {
    FactsSoFar(t, n, |t[n].children|)
  }

  /** The facts of the node and of its first `i` children. */
  function FactsSoFar(t: Tree, n: NodeId, i: nat): (r: Facts)
    requires IsTree(t) && n < |t| && i <= |t[n].children|
    ensures Computed !in r
    decreases |t| - n, 0, i
  {
    if i == 0 then t[n].own
    else
      var c := t[n].children[i - 1];
      assert c in t[n].children;
      FactsSoFar(t, n, i - 1) + (FactsOf(t, c) - t[c].exclusions)
  }

  /** A path of children from `n` to a node that has the fact itself, on which no node below `n` keeps the
      fact from its parent. */
  ghost predicate BringsUp(t: Tree, n: NodeId, f: Fact, path: seq<NodeId>) {
    && path != [] && path[0] == n
    && (forall i :: 0 <= i < |path| ==> path[i] < |t|)
    && (forall i :: 0 < i < |path| ==> path[i] in t[path[i - 1]].children && f !in t[path[i]].exclusions)
    && f in t[path[|path| - 1]].own
  }

  /** The facts of a subtree are exactly those of the nodes in it, as far as nothing on the way up excludes
      them. */
  lemma {:induction false} FactsMeaning(t: Tree, n: NodeId, f: Fact)
    requires IsTree(t) && n < |t|
    ensures f in FactsOf(t, n) <==> exists path :: BringsUp(t, n, f, path)
    decreases |t| - n, 1, 0
  {
    hide BringsUp;
    FactsSoFarMeaning(t, n, f, |t[n].children|);
    if path :| BringsUp(t, n, f, path) {
      FirstOfPath(t, n, f, path);
    }
  }

  /** The facts so far come from the node or up one of the paths through its first children. */
  lemma {:induction false} FactsSoFarMeaning(t: Tree, n: NodeId, f: Fact, k: nat)
    requires IsTree(t) && n < |t| && k <= |t[n].children|
    ensures f in FactsSoFar(t, n, k) ==> exists path :: BringsUp(t, n, f, path)
    ensures f in t[n].own ==> f in FactsSoFar(t, n, k)
    ensures forall j, path :: 0 <= j < k && BringsUp(t, t[n].children[j], f, path) && f !in t[t[n].children[j]].exclusions ==>
              f in FactsSoFar(t, n, k)
    decreases |t| - n, 0, k
  {
    hide BringsUp;
    if k == 0 {
      if f in t[n].own {
        OwnPath(t, n, f);
      }
    } else {
      var c := t[n].children[k - 1];
      assert c in t[n].children;
      FactsSoFarMeaning(t, n, f, k - 1);
      FactsMeaning(t, c, f);
      if f in FactsOf(t, c) && f !in t[c].exclusions {
        var path :| BringsUp(t, c, f, path);
        LongerPath(t, n, f, c, path);
      }
    }
  }

  lemma OwnPath(t: Tree, n: NodeId, f: Fact)
    requires n < |t| && f in t[n].own
    ensures BringsUp(t, n, f, [n])
  {
  }

  lemma LongerPath(t: Tree, n: NodeId, f: Fact, c: NodeId, path: seq<NodeId>)
    requires n < |t| && c < |t| && c in t[n].children && f !in t[c].exclusions && BringsUp(t, c, f, path)
    ensures BringsUp(t, n, f, [n] + path)
  {
    var longer := [n] + path;
    forall i | 0 < i < |longer|
      ensures longer[i] in t[longer[i - 1]].children && f !in t[longer[i]].exclusions
    {
      if i > 1 {
        assert longer[i] == path[i - 1] && longer[i - 1] == path[i - 2];
      }
    }
  }

  lemma FirstOfPath(t: Tree, n: NodeId, f: Fact, path: seq<NodeId>)
    requires n < |t| && BringsUp(t, n, f, path)
    ensures f in t[n].own || exists j, rest ::
              && 0 <= j < |t[n].children| && t[n].children[j] < |t| && f !in t[t[n].children[j]].exclusions
              && BringsUp(t, t[n].children[j], f, rest)
  {
    if |path| > 1 {
      var rest, c := path[1..], path[1];
      assert c in t[path[0]].children;
      var j :| 0 <= j < |t[n].children| && t[n].children[j] == c;
      forall i | 0 < i < |rest|
        ensures rest[i] in t[rest[i - 1]].children && f !in t[rest[i]].exclusions
      {
        assert rest[i] == path[i + 1] && rest[i - 1] == path[i];
      }
      assert BringsUp(t, c, f, rest);
    }
  }

  // ----- threads -----

  /** A query in progress: about to load the cache, or computing, with `next` the child to ask. */
  datatype Frame =
    | Loading(node: NodeId)
    | Computing(node: NodeId, loaded: Facts, next: nat, facts: Facts)

  datatype Thread = Idle | Busy(stack: seq<Frame>) | Answered(node: NodeId, facts: Facts)

  type ThreadId = nat

  datatype State = State(cache: map<NodeId, Facts>, threads: map<ThreadId, Thread>)

  function Load(s: State, n: NodeId): Facts {
    if n in s.cache then s.cache[n] else {}
  }

  function At(s: State, t: ThreadId): Thread {
    if t in s.threads then s.threads[t] else Idle
  }

  /** The answer to the innermost query goes to the query that asked, or is the answer of the thread. */
  function Deliver(t: Tree, stack: seq<Frame>, n: NodeId, answer: Facts): Thread
    requires n < |t|
  {
    if stack == [] then Answered(n, answer)
    else
      var top := stack[|stack| - 1];
      if top.Computing? then Busy(stack[..|stack| - 1] + [top.(next := top.next + 1, facts := top.facts + (answer - t[n].exclusions))])
      else Busy(stack)
  }

  /** The step of a thread; an idle thread asks for `n`. */
  function StepOf(t: Tree, s: State, id: ThreadId, n: NodeId): State {
    match At(s, id)
    case Idle => s.(threads := s.threads[id := Busy([Loading(n)])])
    case Answered(_, _) => s.(threads := s.threads[id := Idle])
    case Busy(stack) =>
      if stack == [] then s
      else
        var below, top := stack[..|stack| - 1], stack[|stack| - 1];
        if top.node >= |t| then s
        else if top.Loading? then
          var facts := Load(s, top.node);
          s.(threads := s.threads[id :=
            if Computed in facts then Deliver(t, below, top.node, facts - {Computed})
            else Busy(below + [Computing(top.node, facts, 0, t[top.node].own)])])
        else if top.next < |t[top.node].children| then
          s.(threads := s.threads[id := Busy(stack + [Loading(t[top.node].children[top.next])])])
        else
          var facts := top.loaded + top.facts + {Computed};
          State(s.cache[top.node := facts], s.threads[id := Deliver(t, below, top.node, facts - {Computed})])
  }

  const START := State(map[], map[])

  /** A run: which thread steps next, and what it asks for if it is idle. */
  type Schedule = seq<(ThreadId, NodeId)>

  function Run(t: Tree, schedule: Schedule): State {
    if schedule == [] then START
    else
      var last := schedule[|schedule| - 1];
      StepOf(t, Run(t, schedule[..|schedule| - 1]), last.0, last.1)
  }

  // ----- what every step keeps -----

  ghost predicate Cached(t: Tree, cache: map<NodeId, Facts>)
    requires IsTree(t)
  {
    forall n :: n in cache ==> n < |t| && cache[n] == FactsOf(t, n) + {Computed}
  }

  ghost predicate Sound(t: Tree, f: Frame)
    requires IsTree(t)
  {
    && f.node < |t|
    && (f.Computing? ==> f.next <= |t[f.node].children| && f.loaded == {} && f.facts == FactsSoFar(t, f.node, f.next))
  }

  /** Each query but the innermost waits for the child that the next one asks for. */
  ghost predicate Waits(t: Tree, f: Frame, n: NodeId)
    requires IsTree(t)
  {
    Sound(t, f) && f.Computing? && f.next < |t[f.node].children| && t[f.node].children[f.next] == n
  }

  ghost predicate Stacked(t: Tree, stack: seq<Frame>)
    requires IsTree(t)
  {
    && stack != []
    && (forall i :: 0 <= i < |stack| ==> Sound(t, stack[i]))
    && forall i :: 0 <= i < |stack| - 1 ==> Waits(t, stack[i], stack[i + 1].node)
  }

  ghost predicate Right(t: Tree, th: Thread)
    requires IsTree(t)
  {
    match th
    case Idle => true
    case Busy(stack) => Stacked(t, stack)
    case Answered(n, facts) => n < |t| && facts == FactsOf(t, n)
  }

  ghost predicate Inv(t: Tree, s: State)
    requires IsTree(t)
  {
    Cached(t, s.cache) && forall id :: id in s.threads ==> Right(t, s.threads[id])
  }

  lemma DeliverRight(t: Tree, stack: seq<Frame>, n: NodeId)
    requires IsTree(t) && n < |t|
    requires stack != [] ==> Stacked(t, stack) && Waits(t, stack[|stack| - 1], n)
    ensures Right(t, Deliver(t, stack, n, FactsOf(t, n)))
  {
    hide IsTree, FactsOf;
    if stack != [] {
      var top := stack[|stack| - 1];
      var after := top.(next := top.next + 1, facts := top.facts + (FactsOf(t, n) - t[n].exclusions));
      assert after.facts == FactsSoFar(t, top.node, top.next + 1);
      var r := stack[..|stack| - 1] + [after];
      forall i | 0 <= i < |r| - 1
        ensures Waits(t, r[i], r[i + 1].node)
      {
        assert Waits(t, stack[i], stack[i + 1].node);
      }
    }
  }

  lemma PushRight(t: Tree, below: seq<Frame>, f: Frame)
    requires IsTree(t) && Sound(t, f)
    requires below != [] ==> Stacked(t, below) && Waits(t, below[|below| - 1], f.node)
    ensures Stacked(t, below + [f])
  {
    hide Sound, Waits, IsTree;
    var r := below + [f];
    forall i | 0 <= i < |r| - 1
      ensures Waits(t, r[i], r[i + 1].node)
    {
      if i < |below| - 1 {
        assert Waits(t, below[i], below[i + 1].node);
      }
    }
  }

  lemma BelowRight(t: Tree, stack: seq<Frame>)
    requires IsTree(t) && Stacked(t, stack)
    ensures var below, top := stack[..|stack| - 1], stack[|stack| - 1];
            Sound(t, top) && (below != [] ==> Stacked(t, below) && Waits(t, below[|below| - 1], top.node))
  {
    hide Sound, Waits, IsTree;
    var below := stack[..|stack| - 1];
    if below != [] {
      assert Waits(t, stack[|stack| - 2], stack[|stack| - 2 + 1].node);
      forall i | 0 <= i < |below| - 1
        ensures Waits(t, below[i], below[i + 1].node)
      {
        assert Waits(t, stack[i], stack[i + 1].node);
      }
    }
  }

  lemma BusyKeeps(t: Tree, s: State, id: ThreadId, stack: seq<Frame>)
    requires IsTree(t) && Cached(t, s.cache) && At(s, id) == Busy(stack) && Stacked(t, stack) && stack != []
    ensures Cached(t, StepOf(t, s, id, 0).cache)
    ensures id in StepOf(t, s, id, 0).threads && Right(t, StepOf(t, s, id, 0).threads[id])
  {
    hide Stacked, Waits, FactsSoFar, IsTree;
    BelowRight(t, stack);
    var below, top := stack[..|stack| - 1], stack[|stack| - 1];
    if top.Loading? {
      var facts := Load(s, top.node);
      if Computed in facts {
        assert facts - {Computed} == FactsOf(t, top.node);
        DeliverRight(t, below, top.node);
      } else {
        StartRight(t, top.node);
        PushRight(t, below, Computing(top.node, facts, 0, t[top.node].own));
      }
    } else if top.next < |t[top.node].children| {
      AskRight(t, top);
      PushRight(t, stack, Loading(t[top.node].children[top.next]));
    } else {
      assert top.loaded + top.facts + {Computed} - {Computed} == FactsOf(t, top.node);
      DeliverRight(t, below, top.node);
    }
  }

  lemma StartRight(t: Tree, n: NodeId)
    requires IsTree(t) && n < |t|
    ensures Sound(t, Computing(n, {}, 0, t[n].own))
  {
  }

  lemma AskRight(t: Tree, f: Frame)
    requires IsTree(t) && Sound(t, f) && f.Computing? && f.next < |t[f.node].children|
    ensures Sound(t, Loading(t[f.node].children[f.next])) && Waits(t, f, t[f.node].children[f.next])
  {
    assert t[f.node].children[f.next] in t[f.node].children;
  }

  lemma NotEmpty(t: Tree, stack: seq<Frame>)
    requires IsTree(t) && Stacked(t, stack)
    ensures stack != []
  {
  }

  lemma StepKeeps(t: Tree, s: State, id: ThreadId, n: NodeId)
    requires IsTree(t) && Inv(t, s) && n < |t|
    ensures Inv(t, StepOf(t, s, id, n))
  {
    hide Stacked, IsTree, Cached, FactsOf;
    match At(s, id)
    case Idle =>
      PushRight(t, [], Loading(n));
      assert [] + [Loading(n)] == [Loading(n)];
    case Answered(_, _) =>
    case Busy(stack) =>
      NotEmpty(t, stack);
      BusyKeeps(t, s, id, stack);
  }

  ghost predicate AsksNodes(t: Tree, schedule: Schedule) {
    forall i :: 0 <= i < |schedule| ==> schedule[i].1 < |t|
  }

  lemma {:induction false} RunKeeps(t: Tree, schedule: Schedule)
    requires IsTree(t) && AsksNodes(t, schedule)
    ensures Inv(t, Run(t, schedule))
  {
    hide Stacked, IsTree, Inv, StepOf;
    if schedule == [] {
      StartKeeps(t);
    } else {
      RunKeeps(t, schedule[..|schedule| - 1]);
      StepKeeps(t, Run(t, schedule[..|schedule| - 1]), schedule[|schedule| - 1].0, schedule[|schedule| - 1].1);
    }
  }

  lemma StartKeeps(t: Tree)
    requires IsTree(t)
    ensures Inv(t, START)
  {
  }

  /** Whatever the interleaving: every query is answered with the facts that the uncached computation
      gives, without the mark, and a cached value is those facts with the mark. */
  lemma QueriesAnswered(t: Tree, schedule: Schedule, id: ThreadId, n: NodeId)
    requires IsTree(t) && AsksNodes(t, schedule)
    ensures var s := Run(t, schedule);
            && (At(s, id).Answered? ==> At(s, id).node < |t| && At(s, id).facts == FactsOf(t, At(s, id).node) && Computed !in At(s, id).facts)
            && (n in s.cache ==> n < |t| && s.cache[n] == FactsOf(t, n) + {Computed})
  {
    hide Stacked, IsTree, Run, FactsOf;
    RunKeeps(t, schedule);
  }
}
