/** What every walk shows: the conditions that guard a statement, the clauses through which the statements of
    a switch are reached, and the way through a finally block. */
module FlowGuards {
  import opened Wrappers
  import opened Syntax
  import opened FlowGraph
  import opened FlowBuilder
  import opened FlowGrowth
  import opened FlowMarks
  import opened FlowRegions
  import opened Walks
  import opened ExprSoundness
  import opened StmtSoundness

  // ----- walks through a part of a program -----

  /** The finished graph has the nodes that were made from `o` to `out` as they were, and only they reduce
      the finally labels among them. */
  ghost predicate Settled(o: State, out: State, g: Graph) {
    && |out.graph| <= |g| && |g| >= 2 && g[0].Unreachable? && g[1].Unreachable?
    && (forall i :: |o.graph| <= i < |out.graph| ==> g[i] == out.graph[i])
    && (forall i :: 0 <= i < |g| && g[i].ReduceLabel? && |o.graph| <= g[i].finallyLabel < |out.graph| ==>
          |o.graph| <= i < |out.graph|)
  }

  /** The reductions in force come from reduce labels of the graph. */
  ghost predicate Stems(g: Graph, env: Env) {
    forall l :: l in env ==> exists r :: 0 <= r < |g| && ReducesTo(g[r], l, env[l])
  }

  predicate ReducesTo(n: FlowNode, l: FlowId, list: seq<FlowId>) {
    n.ReduceLabel? && n.finallyLabel == l && n.reduced == list
  }

  lemma NothingStems(g: Graph)
    ensures Stems(g, map[])
  {
  }

  lemma NextStems(g: Graph, n: FlowId, env: Env)
    requires n < |g| && Stems(g, env)
    ensures Stems(g, NextEnv(g, n, env))
  {
    var next := NextEnv(g, n, env);
    forall l | l in next
      ensures exists r :: 0 <= r < |g| && ReducesTo(g[r], l, next[l])
    {
      if g[n].ReduceLabel? && l == g[n].finallyLabel {
        assert ReducesTo(g[n], l, next[l]);
      }
    }
  }

  /** One node back from inside. */
  lemma BackInside(o: State, other: set<nat>, out: State, w: World, n: FlowId, env: Env, p: FlowId)
    requires Enclosed(o, other, out) && Settled(o, out, w.graph) && Stems(w.graph, env)
    requires |o.graph| <= n < |out.graph| && p in Predecessors(w.graph, n, env)
    ensures Inside(o, p) && p < |out.graph|
  {
    assert NodeInside(o, other, out.graph[n]) && Bounded(out.graph[n], |out.graph|) && w.graph[n] == out.graph[n];
    if out.graph[n].FinallyLabel? && n in env {
      var r :| 0 <= r < |w.graph| && ReducesTo(w.graph[r], n, env[n]);
      assert |o.graph| <= r < |out.graph| && w.graph[r] == out.graph[r];
      assert NodeInside(o, other, out.graph[r]) && Bounded(out.graph[r], |out.graph|);
    }
  }

  /** Whether a reduction of `l` is decided inside the part. */
  predicate DecidedInside(o: State, out: State, l: FlowId) {
    |o.graph| <= l < |out.graph|
  }

  /** Single entry: a walk from inside a part passes the flow that the part started from. From there on it is
      a walk with the same reductions in force, apart from those of the part. */
  lemma {:induction false} PassesEntry(o: State, other: set<nat>, out: State, w: World, n: FlowId, env: Env,
                                       path: seq<FlowId>)
    returns (k: nat, env': Env, more: seq<Step>)
    requires Enclosed(o, other, out) && Settled(o, out, w.graph) && Stems(w.graph, env)
    requires w.start < |o.graph| && Inside(o, n) && n < |out.graph| && IsWalk(w, n, env, path)
    ensures k <= |path| && IsWalk(w, o.flow, env', path[k..]) && Stems(w.graph, env')
    ensures Steps(w.graph, n, path) == Steps(w.graph, o.flow, path[k..]) + more
    ensures if k == 0 then n == o.flow else path[k - 1] == o.flow
    ensures forall l :: !DecidedInside(o, out, l) ==> (l in env <==> l in env') && (l in env ==> env'[l] == env[l])
    decreases |path|
  {
    hide Enclosed, NodeInside, Bounded, Settled, Stems;
    if n == o.flow {
      k, env', more := 0, env, [];
      assert path[0..] == path;
    } else {
      InsideNode(o, other, out, w, n, env, path);
      BackInside(o, other, out, w, n, env, path[0]);
      NextStems(w.graph, n, env);
      NextDecided(o, other, out, w, n, env);
      var next := NextEnv(w.graph, n, env);
      k, env', more := PassesEntry(o, other, out, w, path[0], next, path[1..]);
      assert path[1..][k..] == path[k + 1..] && (k > 0 ==> path[1..][k - 1] == path[k]);
      k, more := k + 1, more + StepsAt(w.graph, n);
    }
  }

  lemma InsideNode(o: State, other: set<nat>, out: State, w: World, n: FlowId, env: Env, path: seq<FlowId>)
    requires Enclosed(o, other, out) && Settled(o, out, w.graph)
    requires w.start < |o.graph| && Inside(o, n) && n != o.flow && IsWalk(w, n, env, path)
    ensures n >= |o.graph| && path != []
  {
    assert w.graph[0].Unreachable? && w.graph[1].Unreachable?;
  }

  lemma NextDecided(o: State, other: set<nat>, out: State, w: World, n: FlowId, env: Env)
    requires Enclosed(o, other, out) && Settled(o, out, w.graph) && |o.graph| <= n < |out.graph|
    ensures forall l :: !DecidedInside(o, out, l) ==>
              (l in env <==> l in NextEnv(w.graph, n, env)) && (l in env ==> NextEnv(w.graph, n, env)[l] == env[l])
  {
    assert NodeInside(o, other, out.graph[n]) && Bounded(out.graph[n], |out.graph|) && w.graph[n] == out.graph[n];
  }

  /** A part of a part. */
  lemma SettledPart(o: State, a: State, b: State, out: State, g: Graph)
    requires Settled(o, out, g) && Enclosed(o, {}, a) && Enclosed(b, {}, out) && |a.graph| <= |b.graph|
    requires Extends(a.graph, out.graph)
    requires forall i :: |a.graph| <= i < |b.graph| ==> out.graph[i] == b.graph[i]
    ensures Settled(a, b, g)
  {
    forall i | 0 <= i < |g| && g[i].ReduceLabel? && |a.graph| <= g[i].finallyLabel < |b.graph|
      ensures |a.graph| <= i < |b.graph|
    {
      assert |o.graph| <= i < |out.graph| && g[i] == out.graph[i];
      ReducedBelow(o, a, out.graph, i);
      ReducedAbove(b, out, i);
    }
  }

  lemma ReducedBelow(o: State, a: State, g: Graph, i: nat)
    requires Enclosed(o, {}, a) && Extends(a.graph, g) && |o.graph| <= i < |g| && g[i].ReduceLabel?
    ensures i < |a.graph| ==> g[i].finallyLabel < |a.graph|
  {
    if i < |a.graph| {
      assert Refines(a.graph[i], g[i]) && Bounded(a.graph[i], |a.graph|);
    }
  }

  lemma ReducedAbove(b: State, out: State, i: nat)
    requires Enclosed(b, {}, out) && i < |out.graph| && out.graph[i].ReduceLabel?
    ensures i >= |b.graph| ==> out.graph[i].finallyLabel >= |b.graph|
  {
    assert i >= |b.graph| ==> NodeInside(b, {}, out.graph[i]);
  }

  // ----- conditions -----

  /** The steps of a walk show that the condition had this truth value: they hold the condition, if it can
      narrow anything, or, for a logical expression, show the same of enough of its operands. */
  ghost predicate Shows(e: Expr, b: bool, steps: seq<Step>) {
    || (!IsLogicalExpression(e) && !IsLogicalAssignment(e) && (IsNarrowing(e) ==> Held(e, b) in steps))
    || (match e
        case Paren(x) => Branches(x) && Shows(x, b, steps)
        case Not(x) => Branches(x) && Shows(x, !b, steps)
        case Logical(op, l, r) =>
          if Decides(op, b) then Shows(l, b, steps) || (Shows(l, !b, steps) && Shows(r, b, steps))
          else Shows(l, b, steps) && Shows(r, b, steps)
        case LogicalAssign(op, _, _, _) =>
          || (Decides(op, b) && Held(Target(e), b) in steps)
          || (Held(Target(e), op.AmpersandAmpersand?) in steps && Held(e, b) in steps)
        case _ => false)
  }

  lemma {:induction false} ShowsMore(e: Expr, b: bool, steps: seq<Step>, more: seq<Step>)
    requires Shows(e, b, steps)
    ensures Shows(e, b, steps + more)
    decreases e
  {
    match e
    case Paren(x) =>
      if Shows(x, b, steps) {
        ShowsMore(x, b, steps, more);
      }
    case Not(x) =>
      if Shows(x, !b, steps) {
        ShowsMore(x, !b, steps, more);
      }
    case Logical(op, l, r) =>
      if Shows(l, b, steps) {
        ShowsMore(l, b, steps, more);
      }
      if Shows(l, !b, steps) {
        ShowsMore(l, !b, steps, more);
      }
      if Shows(r, b, steps) {
        ShowsMore(r, b, steps, more);
      }
    case _ =>
  }

  /** The target of a condition that came out as `b`. */
  function TargetOf(b: bool, t: FlowId, f: FlowId): FlowId {
    if b then t else f
  }

  predicate GainedAt(g: Graph, h: Graph, t: FlowId, a: FlowId) {
    a in Antecedents(h, t) && a !in Antecedents(g, t)
  }

  lemma NotAmongTargets(targets: set<FlowId>, a: State, b: State, t: FlowId, x: FlowId)
    requires Grows(targets, a, b) && t < |a.graph| && GainedAt(a.graph, b.graph, t, x)
    ensures t in targets
  {
  }

  /** The exception target is another label. */
  predicate Elsewhere(exc: Option<FlowId>, t: FlowId, f: FlowId) {
    exc.Some? ==> exc.value != t && exc.value != f
  }

  /** Where a condition is bound: its targets are two labels made before. */
  ghost predicate Aimed(st: State, t: FlowId, f: FlowId, exc: Option<FlowId>) {
    && Valid(st) && t < |st.graph| && f < |st.graph| && t != f && Elsewhere(exc, t, f)
    && (exc.Some? ==> exc.value < |st.graph|)
  }

  /** A walk in a finished graph from an antecedent that a part has added to a label. */
  ghost predicate WalkFrom(st: State, out: State, w: World, t: FlowId, a: FlowId, env: Env, path: seq<FlowId>) {
    && Settled(st, out, w.graph) && w.start < |st.graph| && Stems(w.graph, env)
    && GainedAt(st.graph, out.graph, t, a) && IsWalk(w, a, env, path)
  }

  /** The condition nodes themselves. */
  lemma LeafShows(e: Expr, t: FlowId, f: FlowId, st: State, w: World, b: bool, a: FlowId, env: Env, path: seq<FlowId>)
    requires Valid(st) && t < |st.graph| && f < |st.graph| && t != f
    requires WalkFrom(st, AddConditions(st, t, f, Some(e)), w, TargetOf(b, t, f), a, env, path)
    ensures IsNarrowing(e) ==> Held(e, b) in Steps(w.graph, a, path)
  {
    hide IsNarrowing, Valid, Settled, Stems, Grows, CreateCondition, AddAntecedent, Steps, IsWalk;
    if IsNarrowing(e) {
      var s1 := AddCondition(st, t, true, Some(e));
      var out := AddConditions(st, t, f, Some(e));
      AddConditionGrows(st, t, true, Some(e));
      GrowsExtends({t}, st, s1);
      if b {
        OtherTarget(s1, f, t, false, e);
        LeafNode(e, t, st, true, a);
        AddConditionGrows(s1, f, false, Some(e));
        NodeStays({f}, s1, out, a);
        HeldAt(e, b, st.flow, st, out, w, a, env, path);
      } else {
        OtherTarget(st, t, f, true, e);
        LeafNode(e, f, s1, false, a);
        HeldAt(e, b, s1.flow, st, out, w, a, env, path);
      }
    }
  }

  lemma NodeStays(targets: set<FlowId>, a: State, b: State, n: FlowId)
    requires Grows(targets, a, b) && n < |a.graph| && a.graph[n].Condition?
    ensures n < |b.graph| && b.graph[n] == a.graph[n]
  {
    assert Refines(a.graph[n], b.graph[n]);
  }

  lemma HeldAt(e: Expr, b: bool, before: FlowId, st: State, out: State, w: World, a: FlowId, env: Env, path: seq<FlowId>)
    requires Settled(st, out, w.graph) && |st.graph| <= a < |out.graph| && out.graph[a] == Condition(b, e, before)
    requires IsWalk(w, a, env, path)
    ensures Held(e, b) in Steps(w.graph, a, path)
  {
    assert w.graph[a] == out.graph[a] && path != [];
    assert Steps(w.graph, a, path) == Steps(w.graph, path[0], path[1..]) + [Held(e, b)];
  }

  lemma OtherTarget(st: State, join: FlowId, t: FlowId, b: bool, e: Expr)
    requires Valid(st) && t < |st.graph| && t != join
    ensures Antecedents(AddCondition(st, join, b, Some(e)).graph, t) == Antecedents(st.graph, t)
  {
    hide IsNarrowing;
    AddConditionGrows(st, join, b, Some(e));
  }

  lemma LeafNode(e: Expr, join: FlowId, st: State, b: bool, a: FlowId)
    requires Valid(st) && join < |st.graph| && IsNarrowing(e)
    requires GainedAt(st.graph, AddCondition(st, join, b, Some(e)).graph, join, a)
    ensures a == |st.graph| && a < |AddCondition(st, join, b, Some(e)).graph|
    ensures AddCondition(st, join, b, Some(e)).graph[a] == Condition(b, e, st.flow)
  {
    hide IsNarrowing;
  }

  /** A walk from a completed label is one from an antecedent of it. */
  lemma FromLabel(w: World, g: Graph, join: FlowId, env: Env, path: seq<FlowId>) returns (a: FlowId, rest: seq<FlowId>)
    requires |w.graph| > 0 && w.graph[0].Unreachable? && join < |w.graph| && IsJoin(w.graph, join)
    requires Antecedents(w.graph, join) == Antecedents(g, join) && IsWalk(w, FinishFlowLabel(g, join), env, path)
    ensures a in Antecedents(g, join) && IsWalk(w, a, env, rest)
    ensures Steps(w.graph, FinishFlowLabel(g, join), path) == Steps(w.graph, a, rest)
  {
    var list := Antecedents(g, join);
    if |list| == 1 {
      a, rest := list[0], path;
    } else {
      LabelWalk(w, g, join, env, path);
      a, rest := path[0], path[1..];
    }
  }

  lemma LabelWalk(w: World, g: Graph, join: FlowId, env: Env, path: seq<FlowId>)
    requires |w.graph| > 0 && w.graph[0].Unreachable? && join < |w.graph| && IsJoin(w.graph, join)
    requires Antecedents(w.graph, join) == Antecedents(g, join) && |Antecedents(g, join)| != 1
    requires IsWalk(w, FinishFlowLabel(g, join), env, path)
    ensures path != [] && FinishFlowLabel(g, join) == join && path[0] in Antecedents(g, join)
    ensures IsWalk(w, path[0], env, path[1..]) && Steps(w.graph, join, path) == Steps(w.graph, path[0], path[1..])
  {
    if path != [] {
      assert Steps(w.graph, path[0], path[1..]) + [] == Steps(w.graph, path[0], path[1..]);
    }
  }

  /** What is bound as a branch although it is no logical expression is bound as a value. */
  lemma {:induction false} NoBranch(e: Expr, t: FlowId, f: FlowId, exc: Option<FlowId>, st: State)
    requires !Branches(e)
    ensures BindExpr(e, AsBranch(t, f), exc, st) == BindExpr(e, AsValue, exc, st)
    decreases e
  {
    hide BindLogical, BindConditional, Mutate;
    match e
    case Paren(x) => NoBranch(x, t, f, exc, st);
    case Not(x) => NoBranch(x, f, t, exc, st);
    case _ =>
  }

  lemma ValueGains(e: Expr, exc: Option<FlowId>, st: State, t: FlowId, a: FlowId)
    requires Valid(st) && t < |st.graph| && (exc.Some? ==> exc.value != t)
    ensures !GainedAt(st.graph, BindExpr(e, AsValue, exc, st).graph, t, a)
  {
    hide Grows, Valid, BindExpr;
    ExprGrows(e, AsValue, exc, st);
    if GainedAt(st.graph, BindExpr(e, AsValue, exc, st).graph, t, a) {
      NotAmongTargets(ModeTargets(AsValue) + Optional(exc), st, BindExpr(e, AsValue, exc, st), t, a);
    }
  }

  /** A part at the end of another. */
  lemma SettledEnd(o: State, a: State, out: State, g: Graph)
    requires Settled(o, out, g) && Enclosed(o, {}, a) && Extends(a.graph, out.graph) && Valid(out)
    ensures Settled(a, out, g)
  {
    hide Enclosed, Extends, Settled;
    EnclosedLength(o, {}, a);
    ExtendsLength(a.graph, out.graph);
    TwoFirst(out);
    Enclosing(out, {});
    SettledPart(o, a, out, out, g);
  }

  lemma TwoFirst(st: State)
    requires Valid(st)
    ensures 2 <= |st.graph| && st.flow < |st.graph|
  {
  }

  lemma SettledGraph(o: State, a: State, b: State, g: Graph)
    requires Settled(o, a, g) && b.graph == a.graph
    ensures Settled(o, b, g)
  {
  }

  /** Every condition is shown by the walks from the antecedents that it adds to its targets. */
  lemma {:induction false} ConditionShows(e: Expr, t: FlowId, f: FlowId, exc: Option<FlowId>, st: State, w: World,
                                          b: bool,
                                          a: FlowId, env: Env, path: seq<FlowId>)
    requires Aimed(st, t, f, exc)
    requires WalkFrom(st, BindCondition(e, t, f, exc, st), w, TargetOf(b, t, f), a, env, path)
    ensures Shows(e, b, Steps(w.graph, a, path))
    decreases e, 2
  {
    hide Grows, Valid, BindExpr, Enclosed, Settled, Stems, AddConditions, IsNarrowing, IsWalk, Steps, Extends, Branches;
    var s1 := BindExpr(e, AsBranch(t, f), exc, st);
    var out := BindCondition(e, t, f, exc, st);
    ExprGrows(e, AsBranch(t, f), exc, st);
    GrowsExtends(ModeTargets(AsBranch(t, f)) + Optional(exc), st, s1);
    TwoFirst(st);
    Enclosing(st, {});
    ExprEnclosed(st, {}, e, AsBranch(t, f), exc, st);
    ConditionParts(e, t, f, exc, st);
    if GainedAt(st.graph, s1.graph, TargetOf(b, t, f), a) {
      if Branches(e) {
        TwoFirst(s1);
        Enclosing(s1, {});
        AddConditionsEnclosed(s1, {}, s1, t, f, Some(e));
        GrowsExtends({t, f}, s1, out);
        ExtendsTrans(st.graph, s1.graph, out.graph);
        SettledBefore(st, s1, out, w.graph, {t, f});
        BranchShows(e, t, f, exc, st, w, b, a, env, path);
      } else {
        NoBranch(e, t, f, exc, st);
        ValueGains(e, exc, st, TargetOf(b, t, f), a);
      }
    } else {
      LogicalBranches(e);
      AddConditionsGrows(s1, t, f, Some(e));
      GrowsExtends({t, f}, s1, out);
      SettledEnd(st, s1, out, w.graph);
      LeafShows(e, t, f, s1, w, b, a, env, path);
    }
  }

  lemma ConditionParts(e: Expr, t: FlowId, f: FlowId, exc: Option<FlowId>, st: State)
    requires Valid(st)
    ensures var s1, out := BindExpr(e, AsBranch(t, f), exc, st), BindCondition(e, t, f, exc, st);
            && Grows({t, f}, s1, out) && Valid(out)
            && out == if IsLogicalExpression(e) || IsLogicalAssignment(e) then s1 else AddConditions(s1, t, f, Some(e))
  {
    hide Grows, Valid, BindExpr, AddConditions;
    var s1 := BindExpr(e, AsBranch(t, f), exc, st);
    ExprGrows(e, AsBranch(t, f), exc, st);
    AddConditionsGrows(s1, t, f, Some(e));
    Begin({t, f}, s1);
  }

  /** A part at the beginning of another, if the rest adds to older labels only. */
  lemma SettledBefore(o: State, b: State, out: State, g: Graph, targets: set<FlowId>)
    requires Settled(o, out, g) && Grows(targets, b, out) && forall t :: t in targets ==> t < |o.graph|
    requires Enclosed(b, {}, out) && Extends(o.graph, out.graph) && 2 <= |o.graph| <= |b.graph| && o.flow < |o.graph|
    ensures Settled(o, b, g)
  {
    hide Enclosed, Settled;
    Enclosing(o, {});
    SettledPart(o, o, b, out, g);
  }

  lemma {:induction false} BranchShows(e: Expr, t: FlowId, f: FlowId, exc: Option<FlowId>, st: State, w: World, b: bool,
                                       a: FlowId, env: Env, path: seq<FlowId>)
    requires Aimed(st, t, f, exc) && Branches(e)
    requires WalkFrom(st, BindExpr(e, AsBranch(t, f), exc, st), w, TargetOf(b, t, f), a, env, path)
    ensures Shows(e, b, Steps(w.graph, a, path))
    decreases e, 1
  {
    hide WalkFrom, BindLogical, Valid, IsNarrowing, Steps, Settled;
    DeadGains(e, t, f, exc, st, w, b, a, env, path);
    match e
    case Paren(x) => BranchShows(x, t, f, exc, st, w, b, a, env, path);
    case Not(x) => BranchShows(x, f, t, exc, st, w, !b, a, env, path);
    case Logical(_, _, _) => LogicalShows(e, t, f, exc, st, w, b, a, env, path);
    case LogicalAssign(_, _, _, _) => AssignShows(e, t, f, exc, st, w, b, a, env, path);
  }

  lemma DeadGains(e: Expr, t: FlowId, f: FlowId, exc: Option<FlowId>, st: State, w: World, b: bool, a: FlowId, env: Env,
                  path: seq<FlowId>)
    requires WalkFrom(st, BindExpr(e, AsBranch(t, f), exc, st), w, TargetOf(b, t, f), a, env, path)
    ensures !Dead(st)
  {
    hide BindLogical, BindConditional, Mutate;
  }

  predicate AllUnder(targets: set<FlowId>, size: nat) {
    forall x :: x in targets ==> x < size
  }

  /** What holds between the operands of a logical expression. */
  ghost predicate Operands(e: Expr, t: FlowId, f: FlowId, pre: FlowId, exc: Option<FlowId>, st: State, s0: State,
                           s1: State,
                           s2: State, out: State) {
    && pre == |st.graph| && s0 == NewNode(st, BranchLabel([])) && s2 == Resume(s1, pre)
    && Enclosed(st, {}, s0) && Enclosed(s0, {}, s1) && Enclosed(st, {}, s2) && Enclosed(s2, {}, out)
    && Valid(s0) && Valid(s1) && Valid(s2) && Valid(out) && s0.graph[pre] == BranchLabel([])
    && (exists targets :: AllUnder(targets, |st.graph|) && Grows(targets, s2, out))
    && (exists targets :: AllUnder(targets, |st.graph| + 1) && Grows(targets, s0, s1))
    && Grows({}, st, s0)
  }

  /** The parts of a walk through a logical expression. */
  lemma OperandsSettled(e: Expr, t: FlowId, f: FlowId, pre: FlowId, exc: Option<FlowId>, st: State, s0: State, s1: State,
                        s2: State, out: State, g: Graph)
    requires Operands(e, t, f, pre, exc, st, s0, s1, s2, out) && Settled(st, out, g)
    ensures Settled(s0, s1, g) && Settled(s2, out, g)
    ensures |s0.graph| == pre + 1 <= |s1.graph| == |s2.graph| <= |out.graph|
    ensures Enclosed(s2, {}, out) && Valid(s0) && Valid(s2) && Valid(out) && |g| > 0 && g[0].Unreachable?
    ensures Extends(st.graph, s1.graph) && pre < |g| && IsJoin(g, pre)
    ensures Antecedents(g, pre) == Antecedents(s1.graph, pre)
  {
    hide Enclosed, Settled, Valid;
    var rest :| AllUnder(rest, |st.graph|) && Grows(rest, s2, out);
    var left :| AllUnder(left, |st.graph| + 1) && Grows(left, s0, s1);
    ExtendsTrans(st.graph, s0.graph, s1.graph);
    ExtendsTrans(s1.graph, s2.graph, out.graph);
    ExtendsTrans(s0.graph, s1.graph, out.graph);
    ExtendsTrans(st.graph, s0.graph, out.graph);
    SettledPart(st, s0, s2, out, g);
    SettledGraph(s0, s2, s1, g);
    SettledEnd(st, s2, out, g);
    SettledNode(st, out, g, pre);
    SettledNodes(st, out, g);
    assert Refines(s0.graph[pre], s1.graph[pre]);
  }

  lemma SettledNodes(o: State, out: State, g: Graph)
    requires Settled(o, out, g)
    ensures |g| >= 2 && g[0].Unreachable? && g[1].Unreachable?
  {
  }

  lemma SettledNode(o: State, out: State, g: Graph, n: FlowId)
    requires Settled(o, out, g) && |o.graph| <= n < |out.graph|
    ensures n < |g| && g[n] == out.graph[n]
  {
  }

  lemma LogicalOperands(e: Expr, t: FlowId, f: FlowId, exc: Option<FlowId>, st: State)
    returns (s0: State, s1: State, s2: State)
    requires e.Logical? && !Dead(st) && Aimed(st, t, f, exc)
    ensures var pre, out := |st.graph|, BindExpr(e, AsBranch(t, f), exc, st);
            && s1 == BindCondition(e.left, LeftTrue(e, t, pre), LeftFalse(e, f, pre), exc, s0)
            && out == BindCondition(e.right, t, f, exc, s2)
            && Operands(e, t, f, pre, exc, st, s0, s1, s2, out)
  {
    hide Grows, Valid, BindCondition, Enclosed, FinishFlowLabel, AddAntecedent;
    var pre := |st.graph|;
    s0 := NewNode(st, BranchLabel([]));
    var lt, lf := LeftTrue(e, t, pre), LeftFalse(e, f, pre);
    s1 := BindCondition(e.left, lt, lf, exc, s0);
    s2 := Resume(s1, pre);
    var out := BindCondition(e.right, t, f, exc, s2);
    FlowInRange(st);
    AppendGrows(st, s0, [BranchLabel([])]);
    ConditionGrows(e.left, lt, lf, exc, s0);
    ResumeGrows(s1, pre);
    ConditionGrows(e.right, t, f, exc, s2);
    OperandsEnclosed(st, s0, pre);
    TwoFirst(s0);
    Enclosing(s0, {});
    ConditionEnclosed(s0, {}, e.left, lt, lf, exc, s0);
    ConditionEnclosed(st, {}, e.left, lt, lf, exc, s0);
    ResumeEnclosed(st, {}, s1, pre);
    TwoFirst(s2);
    Enclosing(s2, {});
    ConditionEnclosed(s2, {}, e.right, t, f, exc, s2);
    LogicalIs(e, t, f, exc, st);
    assert AllUnder({t, f} + Optional(exc), |st.graph|) && AllUnder({lt, lf} + Optional(exc), |st.graph| + 1);
  }

  lemma OperandsEnclosed(st: State, s0: State, pre: FlowId)
    requires Valid(st) && s0 == NewNode(st, BranchLabel([])) && pre == |st.graph|
    ensures Enclosed(st, {}, s0)
  {
    hide Enclosed;
    Enclosing(st, {});
    EnclosedLength(st, {}, st);
    LabelsEnclosed(st, {}, st, s0, [BranchLabel([])]);
  }

  lemma LogicalIs(e: Expr, t: FlowId, f: FlowId, exc: Option<FlowId>, st: State)
    requires e.Logical? && !Dead(st)
    ensures BindExpr(e, AsBranch(t, f), exc, st) == BindAndOr(e, t, f, |st.graph|, exc, NewNode(st, BranchLabel([])))
  {
    hide BindAndOr;
    assert BindExpr(e, AsBranch(t, f), exc, st) == BindLogical(e, AsBranch(t, f), exc, st);
    assert BindLogical(e, AsBranch(t, f), exc, st) == BindLogicalLike(e, t, f, exc, st);
  }

  lemma {:induction false} LogicalShows(e: Expr, t: FlowId, f: FlowId, exc: Option<FlowId>, st: State, w: World, b: bool,
                                        a: FlowId, env: Env, path: seq<FlowId>)
    requires e.Logical? && !Dead(st) && Aimed(st, t, f, exc)
    requires WalkFrom(st, BindExpr(e, AsBranch(t, f), exc, st), w, TargetOf(b, t, f), a, env, path)
    ensures Shows(e, b, Steps(w.graph, a, path))
    decreases e, 0
  {
    hide Grows, Valid, BindExpr, BindCondition, Enclosed, Settled, Stems, IsNarrowing, IsWalk, Steps, FinishFlowLabel, Operands,
         Extends;
    var pre, target, out := |st.graph|, TargetOf(b, t, f), BindExpr(e, AsBranch(t, f), exc, st);
    var s0, s1, s2 := LogicalOperands(e, t, f, exc, st);
    var lt, lf := LeftTrue(e, t, pre), LeftFalse(e, f, pre);
    OperandsSettled(e, t, f, pre, exc, st, s0, s1, s2, out, w.graph);
    OperandsAimed(e, t, f, pre, exc, st, s0, s1, s2, out);
    if GainedAt(s0.graph, s1.graph, target, a) {
      NotPre(e, t, f, exc, st, s0, s1, target, a);
      ConditionShows(e.left, lt, lf, exc, s0, w, b, a, env, path);
    } else {
      ConditionShows(e.right, t, f, exc, s2, w, b, a, env, path);
      InsideGained(s2, out, target, a);
      var k, env', more := PassesEntry(s2, {}, out, w, a, env, path);
      var x, rest := FromLabel(w, s1.graph, pre, env', path[k..]);
      ConditionShows(e.left, lt, lf, exc, s0, w, e.op.AmpersandAmpersand?, x, env', rest);
      ShowsMore(e.left, e.op.AmpersandAmpersand?, Steps(w.graph, x, rest), more);
    }
  }

  lemma OperandsAimed(e: Expr, t: FlowId, f: FlowId, pre: FlowId, exc: Option<FlowId>, st: State, s0: State, s1: State,
                      s2: State, out: State)
    requires (e.Logical? || e.LogicalAssign?) && Aimed(st, t, f, exc) && Operands(e, t, f, pre, exc, st, s0, s1, s2, out)
    requires |s0.graph| <= |s2.graph|
    ensures Aimed(s0, LeftTrue(e, t, pre), LeftFalse(e, f, pre), exc) && Aimed(s2, t, f, exc)
    ensures Antecedents(s0.graph, pre) == [] && forall x: FlowId :: x < |st.graph| ==> Antecedents(s0.graph, x) == Antecedents(st.graph, x)
    ensures s2.graph == s1.graph && pre == |st.graph| < |s0.graph| && s2.flow == FinishFlowLabel(s1.graph, pre)
    ensures s0 == NewNode(st, BranchLabel([]))
  {
    hide Enclosed, Grows, Valid;
  }

  lemma NotPre(e: Expr, t: FlowId, f: FlowId, exc: Option<FlowId>, st: State, s0: State, s1: State, target: FlowId,
               a: FlowId)
    requires e.Logical? && Aimed(st, t, f, exc) && s0 == NewNode(st, BranchLabel([])) && Valid(s0)
    requires s1 == BindCondition(e.left, LeftTrue(e, t, |st.graph|), LeftFalse(e, f, |st.graph|), exc, s0)
    requires GainedAt(s0.graph, s1.graph, target, a) && (target == t || target == f)
    ensures target == if e.op.AmpersandAmpersand? then f else t
  {
    hide Grows, Valid, BindCondition;
    var lt, lf := LeftTrue(e, t, |st.graph|), LeftFalse(e, f, |st.graph|);
    ConditionGrows(e.left, lt, lf, exc, s0);
    NotAmongTargets({lt, lf} + Optional(exc), s0, s1, target, a);
  }

  lemma InsideGained(o: State, out: State, t: FlowId, a: FlowId)
    requires Enclosed(o, {}, out) && Valid(out) && t < |o.graph| && GainedAt(o.graph, out.graph, t, a)
    ensures Inside(o, a) && a < |out.graph|
  {
  }

  lemma AssignOperands(e: Expr, t: FlowId, f: FlowId, exc: Option<FlowId>, st: State)
    returns (s0: State, s1: State, s2: State, r: State)
    requires e.LogicalAssign? && !Dead(st) && Aimed(st, t, f, exc)
    ensures var pre, out := |st.graph|, BindExpr(e, AsBranch(t, f), exc, st);
            && s1 == AddConditions(s0, LeftTrue(e, t, pre), LeftFalse(e, f, pre), Some(Target(e)))
            && r == Mutate(BindExpr(e.right, AsValue, exc, s2), exc, e.target) && out == AddConditions(r, t, f, Some(e))
            && Operands(e, t, f, pre, exc, st, s0, s1, s2, out)
            && Enclosed(s2, {}, r) && Valid(r) && Grows({t, f}, r, out) && Grows(Optional(exc), s2, r)
  {
    hide Grows, Valid, BindExpr, Enclosed, FinishFlowLabel, AddAntecedent, AddConditions, Mutate;
    var pre := |st.graph|;
    s0 := NewNode(st, BranchLabel([]));
    var lt, lf := LeftTrue(e, t, pre), LeftFalse(e, f, pre);
    s1 := AddConditions(s0, lt, lf, Some(Target(e)));
    s2 := Resume(s1, pre);
    var v := BindExpr(e.right, AsValue, exc, s2);
    r := Mutate(v, exc, e.target);
    var out := AddConditions(r, t, f, Some(e));
    FlowInRange(st);
    AppendGrows(st, s0, [BranchLabel([])]);
    AddConditionsGrows(s0, lt, lf, Some(Target(e)));
    ResumeGrows(s1, pre);
    ExprGrows(e.right, AsValue, exc, s2);
    MutateGrows(v, exc, e.target);
    Begin(Optional(exc), s2);
    FlowGrowth.Step(Optional(exc), s2, s2, ModeTargets(AsValue) + Optional(exc), v);
    FlowGrowth.Step(Optional(exc), s2, v, Optional(exc), r);
    AddConditionsGrows(r, t, f, Some(e));
    var all := {t, f} + Optional(exc);
    Begin(all, s2);
    FlowGrowth.Step(all, s2, s2, Optional(exc), r);
    FlowGrowth.Step(all, s2, r, {t, f}, out);
    OperandsEnclosed(st, s0, pre);
    TwoFirst(s0);
    Enclosing(s0, {});
    AddConditionsEnclosed(s0, {}, s0, lt, lf, Some(Target(e)));
    AddConditionsEnclosed(st, {}, s0, lt, lf, Some(Target(e)));
    ResumeEnclosed(st, {}, s1, pre);
    TwoFirst(s2);
    Enclosing(s2, {});
    ExprEnclosed(s2, {}, e.right, AsValue, exc, s2);
    MutateEnclosed(s2, {}, v, exc, e.target);
    AddConditionsEnclosed(s2, {}, r, t, f, Some(e));
    AssignIs(e, t, f, exc, st);
    assert AllUnder(all, |st.graph|) && AllUnder({lt, lf}, |st.graph| + 1);
  }

  lemma AssignIs(e: Expr, t: FlowId, f: FlowId, exc: Option<FlowId>, st: State)
    requires e.LogicalAssign? && !Dead(st)
    ensures var s0 := NewNode(st, BranchLabel([]));
            var s1 := AddConditions(s0, LeftTrue(e, t, |st.graph|), LeftFalse(e, f, |st.graph|), Some(Target(e)));
            BindExpr(e, AsBranch(t, f), exc, st) ==
              AddConditions(Mutate(BindExpr(e.right, AsValue, exc, Resume(s1, |st.graph|)), exc, e.target), t, f, Some(e))
  {
    hide AddConditions, Mutate, Resume;
    var s0 := NewNode(st, BranchLabel([]));
    var s1 := AddConditions(s0, LeftTrue(e, t, |st.graph|), LeftFalse(e, f, |st.graph|), Some(Target(e)));
    assert BindExpr(e, AsBranch(t, f), exc, st) == BindLogical(e, AsBranch(t, f), exc, st);
    assert BindLogical(e, AsBranch(t, f), exc, st) == BindLogicalLike(e, t, f, exc, st);
    assert BindLogicalLike(e, t, f, exc, st) == BindLogicalAssign(e, t, f, |st.graph|, exc, s0);
    assert BindLogicalAssign(e, t, f, |st.graph|, exc, s0) == BindAssignedRight(e, t, f, exc, Resume(s1, |st.graph|));
  }

  lemma AssignShows(e: Expr, t: FlowId, f: FlowId, exc: Option<FlowId>, st: State, w: World, b: bool, a: FlowId,
                    env: Env,
                    path: seq<FlowId>)
    requires e.LogicalAssign? && !Dead(st) && Aimed(st, t, f, exc)
    requires WalkFrom(st, BindExpr(e, AsBranch(t, f), exc, st), w, TargetOf(b, t, f), a, env, path)
    ensures Shows(e, b, Steps(w.graph, a, path))
  {
    hide Grows, Valid, BindExpr, Enclosed, Settled, Stems, IsWalk, Steps, FinishFlowLabel, Operands, Extends, AddConditions,
         Mutate;
    var pre, target, out := |st.graph|, TargetOf(b, t, f), BindExpr(e, AsBranch(t, f), exc, st);
    var s0, s1, s2, r := AssignOperands(e, t, f, exc, st);
    var lt, lf := LeftTrue(e, t, pre), LeftFalse(e, f, pre);
    OperandsSettled(e, t, f, pre, exc, st, s0, s1, s2, out, w.graph);
    OperandsAimed(e, t, f, pre, exc, st, s0, s1, s2, out);
    if GainedAt(s0.graph, s1.graph, target, a) {
      AddConditionsGrows(s0, lt, lf, Some(Target(e)));
      NotAmongTargets({lt, lf}, s0, s1, target, a);
      LeafShows(Target(e), lt, lf, s0, w, b, a, env, path);
    } else {
      if GainedAt(s2.graph, r.graph, target, a) {
        NotAmongTargets(Optional(exc), s2, r, target, a);
      }
      GrowsExtends({t, f}, r, out);
      GrowsExtends(Optional(exc), s2, r);
      SettledEnd(s2, r, out, w.graph);
      LeafShows(e, t, f, r, w, b, a, env, path);
      InsideGained(s2, out, target, a);
      var k, env', more := PassesEntry(s2, {}, out, w, a, env, path);
      var x, rest := FromLabel(w, s1.graph, pre, env', path[k..]);
      LeafShows(Target(e), lt, lf, s0, w, e.op.AmpersandAmpersand?, x, env', rest);
    }
  }
}
