/** Backward walks through a flow graph, and how a walk accounts for what a run has done. */
module Walks {
  import opened Syntax
  import opened FlowGraph
  import opened Execution

  /** What a walk meets: the labelled nodes, listed in execution order. */
  datatype Step =
    | Stored(target: string)
    | Held(expr: Expr, sense: bool)
    | InClauses(switchId: nat, clauseStart: nat, clauseEnd: nat)

  /** While a reduce label is in force, its finally label has the listed antecedents instead of its own;
      the innermost reduce label passed wins. */
  type Env = map<FlowId, seq<FlowId>>

  /** A finished graph and the start node of one function. In the coarse reading (`precise` is false) a
      flow only has to be reachable; in the precise one it has to account for the run. */
  datatype World = World(graph: Graph, start: FlowId, precise: bool)

  function StepsAt(g: Graph, n: FlowId): seq<Step> {
    if n >= |g| then []
    else
      match g[n]
      case Assignment(x, _) => [Stored(x)]
      case Condition(sense, e, _) => [Held(e, sense)]
      case SwitchClause(s, a, b, _) => [InClauses(s, a, b)]
      case _ => []
  }

  function Predecessors(g: Graph, n: FlowId, env: Env): seq<FlowId>
    requires n < |g|
  {
    match g[n]
    case Unreachable => []
    case Start => []
    case BranchLabel(list) => list
    case LoopLabel(list) => list
    case FinallyLabel(list) => if n in env then env[n] else list
    case Assignment(_, a) => [a]
    case Condition(_, _, a) => [a]
    case SwitchClause(_, _, _, a) => [a]
    case AssertionCall(_, a) => [a]
    case ReduceLabel(_, _, a) => [a]
  }

  function NextEnv(g: Graph, n: FlowId, env: Env): Env
    requires n < |g|
  {
    if g[n].ReduceLabel? then env[g[n].finallyLabel := g[n].reduced] else env
  }

  /** `path` leads from `n` back to the start of the function, through one antecedent after another. */
  predicate IsWalk(w: World, n: FlowId, env: Env, path: seq<FlowId>)
    decreases path
  {
    && n < |w.graph|
    && if path == [] then n == w.start && w.graph[n].Start?
       else
         && path[0] in Predecessors(w.graph, n, env)
         && IsWalk(w, path[0], NextEnv(w.graph, n, env), path[1..])
  }

  function Steps(g: Graph, n: FlowId, path: seq<FlowId>): seq<Step>
    decreases path
  {
    if path == [] then [] else Steps(g, path[0], path[1..]) + StepsAt(g, n)
  }

  /** Whether an event is what a labelled node claims about the run. */
  predicate Accounts(step: Step, ev: Event) {
    match step
    case Stored(x) => ev == Assigned(x)
    case Held(e, sense) => ev == Evaluated(e, sense)
    case InClauses(s, a, b) =>
      && ev.Selected? && ev.switchId == s
      && (if ev.clause.Some? then a <= ev.clause.value < b else a == b == 0)
  }

  /** The steps match events of the run, in order, and no assignment of the run is left out. */
  predicate Embeds(steps: seq<Step>, past: seq<Event>)
    decreases past
  {
    if past == [] then steps == []
    else
      var before, last := past[..|past| - 1], past[|past| - 1];
      || (steps != [] && Accounts(steps[|steps| - 1], last) && Embeds(steps[..|steps| - 1], before))
      || (!last.Assigned? && Embeds(steps, before))
  }

  // ----- flows that account for a run -----

  ghost predicate Matched(w: World, n: FlowId, env: Env, past: seq<Event>) {
    exists path :: IsWalk(w, n, env, path) && Embeds(Steps(w.graph, n, path), past)
  }

  ghost predicate Compatible(env: Env, fixed: Env) {
    forall f :: f in env && f in fixed ==> env[f] == fixed[f]
  }

  /** Whatever the later part of a walk has reduced, as long as the finally blocks that enclose this
      point are reduced as in `fixed` or not at all. */
  ghost predicate Flows(w: World, n: FlowId, fixed: Env, past: seq<Event>) {
    forall env :: Compatible(env, fixed) ==> Matched(w, n, env, past)
  }

  ghost predicate Good(w: World, n: FlowId, fixed: Env, past: seq<Event>) {
    && n < |w.graph|
    && !w.graph[n].Unreachable?
    && (w.precise ==> Flows(w, n, fixed, past))
  }

  /** As seen by an analysis that starts at `n`. */
  ghost predicate Explains(w: World, n: FlowId, past: seq<Event>) {
    && n < |w.graph|
    && !w.graph[n].Unreachable?
    && (w.precise ==> Matched(w, n, map[], past))
  }

  lemma GoodIsReachable(w: World, n: FlowId, fixed: Env, past: seq<Event>)
    requires Good(w, n, fixed, past)
    ensures n < |w.graph| && !w.graph[n].Unreachable?
  {
  }

  lemma GoodExplains(w: World, n: FlowId, fixed: Env, past: seq<Event>)
    requires Good(w, n, fixed, past)
    ensures Explains(w, n, past)
  {
    if w.precise {
      assert Compatible(map[], fixed);
    }
  }

  lemma GoodStart(w: World, fixed: Env)
    requires w.start < |w.graph| && w.graph[w.start].Start?
    ensures Good(w, w.start, fixed, [])
  {
    forall env | Compatible(env, fixed)
      ensures Matched(w, w.start, env, [])
    {
      assert IsWalk(w, w.start, env, []) && Embeds(Steps(w.graph, w.start, []), []);
    }
  }

  // ----- the run goes on -----

  /** Between two machines the run has assigned nothing. */
  ghost predicate Quiet(m: Machine, m': Machine) {
    && |m.past| <= |m'.past|
    && m'.past[..|m.past|] == m.past
    && forall i :: |m.past| <= i < |m'.past| ==> !m'.past[i].Assigned?
  }

  lemma EmbedsLater(steps: seq<Step>, past: seq<Event>, ev: Event)
    requires Embeds(steps, past)
    ensures !ev.Assigned? ==> Embeds(steps, past + [ev])
    ensures forall step :: Accounts(step, ev) ==> Embeds(steps + [step], past + [ev])
  {
    var longer := past + [ev];
    assert longer[..|longer| - 1] == past && longer[|longer| - 1] == ev;
    forall step | Accounts(step, ev)
      ensures Embeds(steps + [step], longer)
    {
      assert (steps + [step])[..|steps|] == steps;
    }
  }

  lemma GoodLater(w: World, n: FlowId, fixed: Env, past: seq<Event>, ev: Event)
    requires Good(w, n, fixed, past) && !ev.Assigned?
    ensures Good(w, n, fixed, past + [ev])
  {
    if w.precise {
      forall env | Compatible(env, fixed)
        ensures Matched(w, n, env, past + [ev])
      {
        assert Matched(w, n, env, past);
        var path :| IsWalk(w, n, env, path) && Embeds(Steps(w.graph, n, path), past);
        EmbedsLater(Steps(w.graph, n, path), past, ev);
      }
    }
  }

  lemma {:induction false} GoodQuiet(w: World, n: FlowId, fixed: Env, m: Machine, m': Machine)
    requires Good(w, n, fixed, m.past) && Quiet(m, m')
    ensures Good(w, n, fixed, m'.past)
    decreases |m'.past|
  {
    if |m.past| == |m'.past| {
      assert m'.past == m.past;
    } else {
      var before := m'.(past := m'.past[..|m'.past| - 1]);
      assert Quiet(m, before) by {
        assert before.past[..|m.past|] == m'.past[..|m.past|];
      }
      hide Good;
      GoodQuiet(w, n, fixed, m, before);
      GoodLater(w, n, fixed, before.past, m'.past[|m'.past| - 1]);
      assert before.past + [m'.past[|m'.past| - 1]] == m'.past;
    }
  }

  // ----- one node further -----

  lemma WalkFurther(w: World, n: FlowId, a: FlowId, env: Env, past: seq<Event>)
    returns (steps: seq<Step>, path: seq<FlowId>)
    requires n < |w.graph| && a in Predecessors(w.graph, n, env)
    requires Matched(w, a, NextEnv(w.graph, n, env), past)
    ensures Embeds(steps, past)
    ensures IsWalk(w, n, env, path) && Steps(w.graph, n, path) == steps + StepsAt(w.graph, n)
  {
    var rest :| IsWalk(w, a, NextEnv(w.graph, n, env), rest) && Embeds(Steps(w.graph, a, rest), past);
    steps := Steps(w.graph, a, rest);
    path := [a] + rest;
    assert path[1..] == rest;
  }

  /** A node without a label: a join label or a call. */
  lemma GoodPass(w: World, n: FlowId, a: FlowId, fixed: Env, past: seq<Event>)
    requires Good(w, a, fixed, past) && n < |w.graph|
    requires (IsJoin(w.graph, n) && a in Antecedents(w.graph, n)) || (w.graph[n].AssertionCall? && w.graph[n].antecedent == a)
    ensures Good(w, n, fixed, past)
  {
    if w.precise {
      forall env | Compatible(env, fixed)
        ensures Matched(w, n, env, past)
      {
        assert Matched(w, a, env, past);
        var steps, path := WalkFurther(w, n, a, env, past);
        assert steps + StepsAt(w.graph, n) == steps;
      }
    }
  }

  /** A labelled node whose claim is the event that just happened. */
  lemma GoodStep(w: World, n: FlowId, a: FlowId, fixed: Env, past: seq<Event>, ev: Event)
    requires Good(w, a, fixed, past) && n < |w.graph|
    requires |StepsAt(w.graph, n)| == 1 && Accounts(StepsAt(w.graph, n)[0], ev) && w.graph[n].antecedent == a
    ensures Good(w, n, fixed, past + [ev])
  {
    if w.precise {
      forall env | Compatible(env, fixed)
        ensures Matched(w, n, env, past + [ev])
      {
        assert Matched(w, a, env, past);
        var steps, path := WalkFurther(w, n, a, env, past);
        EmbedsLater(steps, past, ev);
        assert StepsAt(w.graph, n) == [StepsAt(w.graph, n)[0]];
      }
    }
  }

  /** Into a finally block, for the runs that enter it through the listed flows. */
  lemma GoodEnterFinally(w: World, n: FlowId, a: FlowId, list: seq<FlowId>, fixed: Env, past: seq<Event>)
    requires Good(w, a, fixed, past) && a in list
    requires n < |w.graph| && w.graph[n].FinallyLabel? && n !in fixed
    requires forall x :: x in list ==> x in w.graph[n].antecedents
    ensures Good(w, n, fixed[n := list], past)
  {
    if w.precise {
      forall env | Compatible(env, fixed[n := list])
        ensures Matched(w, n, env, past)
      {
        assert Compatible(env, fixed) by {
          forall f | f in env && f in fixed
            ensures env[f] == fixed[f]
          {
            assert f in fixed[n := list];
          }
        }
        assert n in env ==> env[n] == fixed[n := list][n];
        assert Matched(w, a, env, past);
        var steps, path := WalkFurther(w, n, a, env, past);
        assert steps + StepsAt(w.graph, n) == steps;
      }
    }
  }

  /** Past a finally block, through a reduce label. */
  lemma GoodLeaveFinally(w: World, n: FlowId, a: FlowId, label_: FlowId, list: seq<FlowId>, fixed: Env, past: seq<Event>)
    requires Good(w, a, fixed[label_ := list], past)
    requires n < |w.graph| && w.graph[n] == ReduceLabel(label_, list, a)
    ensures Good(w, n, fixed, past)
  {
    if w.precise {
      forall env | Compatible(env, fixed)
        ensures Matched(w, n, env, past)
      {
        assert Compatible(env[label_ := list], fixed[label_ := list]);
        assert Matched(w, a, env[label_ := list], past);
        var steps, path := WalkFurther(w, n, a, env, past);
        assert steps + StepsAt(w.graph, n) == steps;
      }
    }
  }

  // ----- flows into a label -----

  /** One of the antecedents that `join` has in `g` accounts for the run. */
  ghost predicate Into(w: World, g: Graph, join: FlowId, fixed: Env, past: seq<Event>) {
    exists a :: a in Antecedents(g, join) && Good(w, a, fixed, past)
  }

  lemma IntoExtends(w: World, g: Graph, h: Graph, join: FlowId, fixed: Env, past: seq<Event>)
    requires Into(w, g, join, fixed, past) && Extends(g, h)
    ensures Into(w, h, join, fixed, past)
  {
    hide Good;
    var a :| a in Antecedents(g, join) && Good(w, a, fixed, past);
    assert Refines(g[join], h[join]);
  }

  lemma IntoQuiet(w: World, g: Graph, join: FlowId, fixed: Env, m: Machine, m': Machine)
    requires Into(w, g, join, fixed, m.past) && Quiet(m, m')
    ensures Into(w, g, join, fixed, m'.past)
  {
    hide Good;
    var a :| a in Antecedents(g, join) && Good(w, a, fixed, m.past);
    GoodQuiet(w, a, fixed, m, m');
  }

  lemma IntoAdded(w: World, g: Graph, join: FlowId, a: FlowId, fixed: Env, past: seq<Event>)
    requires Good(w, a, fixed, past) && a < |g| && Extends(g, w.graph) && join < |g| && IsLabel(g[join])
    ensures Into(w, AddAntecedent(g, join, a), join, fixed, past)
  {
    GoodIsReachable(w, a, fixed, past);
    assert Refines(g[a], w.graph[a]);
    assert a in Antecedents(AddAntecedent(g, join, a), join);
  }

  lemma IntoFinished(w: World, g: Graph, join: FlowId, fixed: Env, past: seq<Event>)
    requires Into(w, g, join, fixed, past) && IsJoin(g, join) && Extends(g, w.graph)
    ensures Good(w, FinishFlowLabel(g, join), fixed, past)
  {
    hide Good;
    var a :| a in Antecedents(g, join) && Good(w, a, fixed, past);
    assert Refines(g[join], w.graph[join]);
    if |Antecedents(g, join)| > 1 {
      GoodPass(w, join, a, fixed, past);
    } else {
      assert a == Antecedents(g, join)[0];
    }
  }

  /** A loop label is passed as it will be when the graph is finished. */
  lemma IntoLoop(w: World, g: Graph, join: FlowId, fixed: Env, past: seq<Event>)
    requires Into(w, g, join, fixed, past) && IsJoin(g, join) && Extends(g, w.graph)
    ensures Good(w, join, fixed, past)
  {
    hide Good;
    var a :| a in Antecedents(g, join) && Good(w, a, fixed, past);
    assert Refines(g[join], w.graph[join]);
    GoodPass(w, join, a, fixed, past);
  }

  // ----- what embedding means -----

  function AssignmentSteps(steps: seq<Step>): seq<string> {
    if steps == [] then []
    else
      var last := steps[|steps| - 1];
      AssignmentSteps(steps[..|steps| - 1]) + (if last.Stored? then [last.target] else [])
  }

  function AssignmentEvents(past: seq<Event>): seq<string> {
    if past == [] then []
    else
      var last := past[|past| - 1];
      AssignmentEvents(past[..|past| - 1]) + (if last.Assigned? then [last.target] else [])
  }

  /** The assignment nodes of a walk are, in order, exactly the assignments of the run. */
  lemma {:induction false} EmbedsSameAssignments(steps: seq<Step>, past: seq<Event>)
    requires Embeds(steps, past)
    ensures AssignmentSteps(steps) == AssignmentEvents(past)
    decreases past
  {
    if past != [] {
      var before, last := past[..|past| - 1], past[|past| - 1];
      if steps != [] && Accounts(steps[|steps| - 1], last) && Embeds(steps[..|steps| - 1], before) {
        EmbedsSameAssignments(steps[..|steps| - 1], before);
      } else {
        EmbedsSameAssignments(steps, before);
      }
    }
  }

  /** Every condition or clause that a walk passes held at some point of the run. */
  lemma {:induction false} EmbedsHeld(steps: seq<Step>, past: seq<Event>, i: nat)
    requires Embeds(steps, past) && i < |steps|
    ensures exists k :: 0 <= k < |past| && Accounts(steps[i], past[k])
    decreases past
  {
    var before, last := past[..|past| - 1], past[|past| - 1];
    if steps != [] && Accounts(steps[|steps| - 1], last) && Embeds(steps[..|steps| - 1], before) {
      if i < |steps| - 1 {
        EmbedsHeld(steps[..|steps| - 1], before, i);
        var k :| 0 <= k < |before| && Accounts(steps[i], before[k]);
        assert past[k] == before[k];
      }
    } else {
      EmbedsHeld(steps, before, i);
      var k :| 0 <= k < |before| && Accounts(steps[i], before[k]);
      assert past[k] == before[k];
    }
  }
}
