/** Every evaluation of an expression is followed by the flow graph: from a flow that accounts for the
    run so far, binding leads to a flow, or to an antecedent of the right target, that accounts for
    the run after the evaluation. */
module ExprSoundness {
  import opened Wrappers
  import opened Syntax
  import opened FlowGraph
  import opened FlowBuilder
  import opened FlowGrowth
  import opened Execution
  import opened Walks

  // ----- small facts -----

  lemma JoinKept(g: Graph, h: Graph, join: FlowId)
    requires Extends(g, h) && IsJoin(g, join)
    ensures IsJoin(h, join)
  {
    assert Refines(g[join], h[join]);
  }

  /** A node that is not a label never changes again. */
  lemma NodeKept(g: Graph, h: Graph, n: FlowId)
    requires Extends(g, h) && n < |g| && !IsLabel(g[n])
    ensures n < |h| && h[n] == g[n]
  {
    assert Refines(g[n], h[n]);
  }

  lemma QuietTrans(a: Machine, b: Machine, c: Machine)
    requires Quiet(a, b) && Quiet(b, c)
    ensures Quiet(a, c)
  {
    assert c.past[..|a.past|] == b.past[..|a.past|];
    forall i | |a.past| <= i < |c.past|
      ensures !c.past[i].Assigned?
    {
      if i < |b.past| {
        assert c.past[i] == b.past[i];
      }
    }
  }

  lemma QuietRefl(m: Machine)
    ensures Quiet(m, m)
  {
  }

  lemma ConcludeQuiet(e: Expr, forced: Option<bool>, m: Machine)
    ensures Quiet(m, Conclude(e, forced, m).machine)
  {
  }

  /** Where an execution is looked at: the finished graph, the graph as it stands when the innermost
      enclosing try looks at its exception label, that label, and the finally blocks around. */
  datatype View = View(w: World, settled: Graph, exceptionTarget: Option<FlowId>, fixed: Env)

  /** A run is covered when it raises an exception now: the innermost enclosing try, if any, has an
      antecedent for it. */
  ghost predicate Covered(v: View, past: seq<Event>) {
    v.exceptionTarget.Some? ==> Into(v.w, v.settled, v.exceptionTarget.value, v.fixed, past)
  }

  lemma CoveredQuiet(v: View, m: Machine, m': Machine)
    requires Covered(v, m.past) && Quiet(m, m')
    ensures Covered(v, m'.past)
  {
    if v.exceptionTarget.Some? {
      IntoQuiet(v.w, v.settled, v.exceptionTarget.value, v.fixed, m, m');
    }
  }

  ghost predicate ExceptionLabel(g: Graph, exceptionTarget: Option<FlowId>) {
    exceptionTarget.Some? ==> IsJoin(g, exceptionTarget.value)
  }

  lemma ExceptionLabelKept(g: Graph, h: Graph, exceptionTarget: Option<FlowId>)
    requires Extends(g, h) && ExceptionLabel(g, exceptionTarget)
    ensures ExceptionLabel(h, exceptionTarget)
  {
    if exceptionTarget.Some? {
      JoinKept(g, h, exceptionTarget.value);
    }
  }

  /** `e` is a logical expression or assignment under parentheses and negations: it is bound by
      branching to the targets of its condition. */
  predicate Branches(e: Expr) {
    match e
    case Paren(x) => Branches(x)
    case Not(x) => Branches(x)
    case Logical(_, _, _) => true
    case LogicalAssign(_, _, _, _) => true
    case _ => false
  }

  lemma {:induction false} LogicalBranches(e: Expr)
    ensures IsLogicalExpression(e) || IsLogicalAssignment(e) ==> Branches(e)
  {
    match e
    case Paren(x) => LogicalBranches(x);
    case Not(x) => LogicalBranches(x);
    case _ =>
  }

  // ----- mutations and conditions -----

  lemma MutateSound(v: View, st: State, past: seq<Event>, x: string)
    requires Valid(st) && Good(v.w, st.flow, v.fixed, past) && ExceptionLabel(st.graph, v.exceptionTarget)
    requires Extends(Mutate(st, v.exceptionTarget, x).graph, v.settled) && Extends(v.settled, v.w.graph)
    ensures Good(v.w, Mutate(st, v.exceptionTarget, x).flow, v.fixed, past + [Assigned(x)])
    ensures Covered(v, past + [Assigned(x)])
  {
    hide Good, Into, Extends, AddAntecedent;
    var f, g, r := |st.graph|, st.graph + [FlowNode.Assignment(x, st.flow)], Mutate(st, v.exceptionTarget, x);
    ExtendsTrans(r.graph, v.settled, v.w.graph);
    var s0 := st.(graph := g, flow := f);
    AppendGrows(st, s0, [FlowNode.Assignment(x, st.flow)]);
    GrowsExtends({}, st, s0);
    ExceptionLabelKept(st.graph, g, v.exceptionTarget);
    assert Extends(g, r.graph) by {
      if v.exceptionTarget.Some? {
        JoinFromGrows(s0, v.exceptionTarget.value, f);
        GrowsExtends({v.exceptionTarget.value}, s0, JoinFrom(s0, v.exceptionTarget.value, f));
      } else {
        ExtendsRefl(g);
      }
    }
    ExtendsTrans(g, r.graph, v.w.graph);
    NodeKept(g, v.w.graph, f);
    GoodStep(v.w, f, st.flow, v.fixed, past, Assigned(x));
    if v.exceptionTarget.Some? {
      IntoAdded(v.w, g, v.exceptionTarget.value, f, v.fixed, past + [Assigned(x)]);
      IntoExtends(v.w, r.graph, v.settled, v.exceptionTarget.value, v.fixed, past + [Assigned(x)]);
    }
  }

  /** The value that `e` may have. */
  predicate MayBe(e: Expr, truthy: bool) {
    (e.TrueLiteral? ==> truthy) && (e.FalseLiteral? ==> !truthy)
  }

  lemma AddConditionSound(v: View, st: State, join: FlowId, sense: bool, e: Expr, past: seq<Event>)
    requires Valid(st) && Good(v.w, st.flow, v.fixed, past) && IsJoin(st.graph, join) && MayBe(e, sense)
    requires Extends(AddCondition(st, join, sense, Some(e)).graph, v.w.graph)
    ensures Into(v.w, AddCondition(st, join, sense, Some(e)).graph, join, v.fixed, past + [Evaluated(e, sense)])
  {
    hide Good, Into, Extends, AddAntecedent;
    var (g, f) := CreateCondition(st.graph, sense, Some(e), st.flow);
    var s0 := st.(graph := g);
    AppendGrows(st, s0, g[|st.graph|..]);
    GrowsExtends({}, st, s0);
    JoinKept(st.graph, g, join);
    var r := JoinFrom(s0, join, f);
    JoinFromGrows(s0, join, f);
    GrowsExtends({join}, s0, r);
    ExtendsTrans(g, r.graph, v.w.graph);
    assert !IsUnreachable(st.graph, st.flow) by {
      ExtendsTrans(st.graph, g, v.w.graph);
      AliveEarlier(v, st, past);
    }
    if f == st.flow {
      GoodLater(v.w, f, v.fixed, past, Evaluated(e, sense));
    } else {
      NodeKept(g, v.w.graph, f);
      GoodStep(v.w, f, st.flow, v.fixed, past, Evaluated(e, sense));
    }
    IntoAdded(v.w, g, join, f, v.fixed, past + [Evaluated(e, sense)]);
  }

  lemma AliveEarlier(v: View, st: State, past: seq<Event>)
    requires Valid(st) && Extends(st.graph, v.w.graph) && Good(v.w, st.flow, v.fixed, past)
    ensures !Dead(st)
  {
    assert Refines(st.graph[st.flow], v.w.graph[st.flow]);
  }

  lemma AddConditionsSound(v: View, st: State, t: FlowId, f: FlowId, e: Expr, truthy: bool, past: seq<Event>)
    requires Valid(st) && Good(v.w, st.flow, v.fixed, past) && MayBe(e, truthy)
    requires IsJoin(st.graph, t) && IsJoin(st.graph, f)
    requires Extends(AddConditions(st, t, f, Some(e)).graph, v.w.graph)
    ensures Into(v.w, AddConditions(st, t, f, Some(e)).graph, if truthy then t else f, v.fixed, past + [Evaluated(e, truthy)])
  {
    hide Good, Into, Extends, AddCondition;
    var s1 := AddCondition(st, t, true, Some(e));
    var s2 := AddCondition(s1, f, false, Some(e));
    AddConditionGrows(st, t, true, Some(e));
    AddConditionGrows(s1, f, false, Some(e));
    GrowsExtends({t}, st, s1);
    GrowsExtends({f}, s1, s2);
    ExtendsTrans(s1.graph, s2.graph, v.w.graph);
    if truthy {
      AddConditionSound(v, st, t, true, e, past);
      IntoExtends(v.w, s1.graph, s2.graph, t, v.fixed, past + [Evaluated(e, true)]);
    } else {
      JoinKept(st.graph, s1.graph, f);
      assert s1.flow == st.flow by { AddConditionKeepsFlow(st, t, true, Some(e)); }
      AddConditionSound(v, s1, f, false, e, past);
    }
  }

  lemma AddConditionKeepsFlow(st: State, join: FlowId, sense: bool, e: Option<Expr>)
    ensures AddCondition(st, join, sense, e).flow == st.flow
    ensures AddCondition(st, join, sense, e).effects == st.effects
  {
  }

  // ----- the evaluation of one expression -----

  /** What is promised when `e`, bound to `out`, evaluates to `r` from machine `m`. */
  ghost predicate Followed(v: View, e: Expr, mode: Mode, out: State, m: Machine, r: ExprRun)
  {
    && (r.outcome.Value? ==> Arrived(v, e, mode, out, r))
    && (!r.outcome.Cut? ==> Covered(v, r.machine.past))
    && (out.effects || Quiet(m, r.machine))
  }

  /** A branching expression has arrived at its target, or at the current flow when bound for its value.
      Any other is at the current flow, from which the conditions on its value are still to be made. */
  ghost predicate Arrived(v: View, e: Expr, mode: Mode, out: State, r: ExprRun)
    requires r.outcome.Value?
  {
    var past := r.machine.past;
    if Branches(e) then
      match mode
      case AsBranch(t, f) => Into(v.w, out.graph, if r.outcome.truthy then t else f, v.fixed, past)
      case AsValue => Good(v.w, out.flow, v.fixed, past)
    else
      && past != []
      && past[|past| - 1] == Evaluated(e, r.outcome.truthy)
      && MayBe(e, r.outcome.truthy)
      && Good(v.w, out.flow, v.fixed, past[..|past| - 1])
  }

  lemma ArrivedGood(v: View, e: Expr, mode: Mode, out: State, r: ExprRun)
    requires mode.AsValue? || !Branches(e)
    requires r.outcome.Value? && Arrived(v, e, mode, out, r)
    ensures Good(v.w, out.flow, v.fixed, r.machine.past)
  {
    hide Good;
    if !Branches(e) {
      var past := r.machine.past;
      GoodLater(v.w, out.flow, v.fixed, past[..|past| - 1], past[|past| - 1]);
      assert past[..|past| - 1] + [past[|past| - 1]] == past;
    }
  }

  /** The last step of an evaluation that is not branching. */
  lemma ConcludeSound(v: View, e: Expr, mode: Mode, out: State, m: Machine, m': Machine, forced: Option<bool>)
    requires mode.AsValue? || !Branches(e)
    requires Good(v.w, out.flow, v.fixed, m'.past) && Covered(v, m'.past)
    requires out.effects || Quiet(m, m')
    requires forced.Some? ==> MayBe(e, forced.value)
    requires e.TrueLiteral? || e.FalseLiteral? ==> forced.Some?
    ensures Followed(v, e, mode, out, m, Conclude(e, forced, m'))
  {
    hide Good, Into;
    var r := Conclude(e, forced, m');
    ConcludeQuiet(e, forced, m');
    CoveredQuiet(v, m', r.machine);
    if Quiet(m, m') {
      QuietTrans(m, m', r.machine);
    }
    if r.outcome.Value? {
      assert r.machine.past[..|r.machine.past| - 1] == m'.past;
      GoodLater(v.w, out.flow, v.fixed, m'.past, Evaluated(e, r.outcome.truthy));
    }
  }

  /** The last step of an evaluation that has arrived at its target already. */
  lemma ConcludeBranch(v: View, e: Expr, mode: Mode, out: State, m: Machine, m': Machine, truthy: bool)
    requires mode.AsBranch? && Branches(e)
    requires Into(v.w, out.graph, if truthy then mode.trueTarget else mode.falseTarget, v.fixed, m'.past)
    requires Covered(v, m'.past)
    requires out.effects || Quiet(m, m')
    ensures Followed(v, e, mode, out, m, Conclude(e, Some(truthy), m'))
  {
    hide Good, Into;
    var r := Conclude(e, Some(truthy), m');
    ConcludeQuiet(e, Some(truthy), m');
    CoveredQuiet(v, m', r.machine);
    if Quiet(m, m') {
      QuietTrans(m, m', r.machine);
    }
    IntoQuiet(v.w, out.graph, if truthy then mode.trueTarget else mode.falseTarget, v.fixed, m', r.machine);
  }

  ghost predicate ModeLabels(g: Graph, mode: Mode) {
    mode.AsBranch? ==> IsJoin(g, mode.trueTarget) && IsJoin(g, mode.falseTarget)
  }

  /** Where an evaluation may start: at a flow that accounts for the run, with the exceptions covered.
      `n` is the graph when the enclosing try looks at its exception label. */
  ghost predicate Ready(v: View, st: State, out: State, past: seq<Event>) {
    && Valid(st)
    && ExceptionLabel(st.graph, v.exceptionTarget)
    && Extends(out.graph, v.settled)
    && Extends(v.settled, v.w.graph)
    && Good(v.w, st.flow, v.fixed, past)
    && Covered(v, past)
  }

  lemma ReadyAlive(v: View, st: State, out: State, past: seq<Event>)
    requires Ready(v, st, out, past) && Extends(st.graph, out.graph)
    ensures !Dead(st)
  {
    hide Good, Into, Extends;
    ExtendsTrans(st.graph, out.graph, v.settled);
    ExtendsTrans(st.graph, v.settled, v.w.graph);
    AliveEarlier(v, st, past);
  }

  /** The start of the first part of a longer construct. */
  lemma ReadyFirst(v: View, st: State, mid: State, out: State, past: seq<Event>)
    requires Ready(v, st, out, past) && Extends(mid.graph, out.graph)
    ensures Ready(v, st, mid, past)
  {
    hide Good, Into, Extends;
    ExtendsTrans(mid.graph, out.graph, v.settled);
  }

  /** The start of a later part. */
  lemma ReadyNext(v: View, st: State, mid: State, out: State, past: seq<Event>)
    requires ExceptionLabel(st.graph, v.exceptionTarget) && Extends(st.graph, mid.graph)
    requires Valid(mid) && Extends(out.graph, v.settled) && Extends(v.settled, v.w.graph)
    requires Good(v.w, mid.flow, v.fixed, past) && Covered(v, past)
    ensures Ready(v, mid, out, past)
  {
    hide Good, Into, Extends;
    ExceptionLabelKept(st.graph, mid.graph, v.exceptionTarget);
  }

  lemma {:induction false} ExprSound(e: Expr, mode: Mode, st: State, v: View, m: Machine)
    requires Ready(v, st, BindExpr(e, mode, v.exceptionTarget, st), m.past)
    requires ModeLabels(st.graph, mode)
    ensures Followed(v, e, mode, BindExpr(e, mode, v.exceptionTarget, st), m, Eval(e, m))
    decreases e, 1
  {
    hide Good, Into, Extends, Grows, Covered, Quiet, Valid, Conclude;
    var r := BindExpr(e, mode, v.exceptionTarget, st);
    ExprGrows(e, mode, v.exceptionTarget, st);
    GrowsExtends(ModeTargets(mode) + Optional(v.exceptionTarget), st, r);
    ReadyAlive(v, st, r, m.past);
    QuietRefl(m);
    match e
    case Ident(_, _) => ConcludeSound(v, e, mode, r, m, m, None);
    case Opaque(_) => ConcludeSound(v, e, mode, r, m, m, None);
    case TrueLiteral => ConcludeSound(v, e, mode, r, m, m, Some(true));
    case FalseLiteral => ConcludeSound(v, e, mode, r, m, m, Some(false));
    case Paren(x) =>
      ExprSound(x, mode, st, v, m);
      var a := Eval(x, m);
      if a.outcome.Value? {
        if Branches(e) && mode.AsBranch? {
          ConcludeBranch(v, e, mode, r, m, a.machine, a.outcome.truthy);
        } else {
          ArrivedGood(v, x, mode, r, a);
          ConcludeSound(v, e, mode, r, m, a.machine, Some(a.outcome.truthy));
        }
      }
    case Not(x) =>
      ExprSound(x, Negated(mode), st, v, m);
      var a := Eval(x, m);
      if a.outcome.Value? {
        if Branches(e) && mode.AsBranch? {
          ConcludeBranch(v, e, mode, r, m, a.machine, !a.outcome.truthy);
        } else {
          ArrivedGood(v, x, Negated(mode), r, a);
          ConcludeSound(v, e, mode, r, m, a.machine, Some(!a.outcome.truthy));
        }
      }
    case Logical(_, _, _) => LogicalSound(e, mode, st, v, m);
    case LogicalAssign(_, _, _, _) => LogicalSound(e, mode, st, v, m);
    case Assign(_, _, _) => AssignSound(e, mode, st, v, m);
    case Conditional(_, _, _) => ConditionalSound(e, mode, st, v, m);
    case Binary(_, _, _) => BinarySound(e, mode, st, v, m);
    case Call(_, _, x) =>
      ExprSound(x, AsValue, st, v, m);
      var a := Eval(x, m);
      if a.outcome.Value? {
        ArrivedGood(v, x, AsValue, r, a);
        ConcludeSound(v, e, mode, r, m, a.machine, None);
      }
  }

  lemma {:induction false} AssignSound(e: Expr, mode: Mode, st: State, v: View, m: Machine)
    requires e.Assign? && !Dead(st)
    requires Ready(v, st, BindExpr(e, mode, v.exceptionTarget, st), m.past)
    ensures Followed(v, e, mode, BindExpr(e, mode, v.exceptionTarget, st), m, Eval(e, m))
    decreases e, 0
  {
    hide Good, Into, Extends, Grows, Covered, Quiet, Valid, Conclude;
    var s1 := BindExpr(e.right, AsValue, v.exceptionTarget, st);
    var r := Mutate(s1, v.exceptionTarget, e.target);
    ExprGrows(e.right, AsValue, v.exceptionTarget, st);
    GrowsExtends(ModeTargets(AsValue) + Optional(v.exceptionTarget), st, s1);
    MutateGrows(s1, v.exceptionTarget, e.target);
    GrowsExtends(Optional(v.exceptionTarget), s1, r);
    ReadyFirst(v, st, s1, r, m.past);
    ExprSound(e.right, AsValue, st, v, m);
    var a := Eval(e.right, m);
    if a.outcome.Value? {
      ArrivedGood(v, e.right, AsValue, s1, a);
      ExceptionLabelKept(st.graph, s1.graph, v.exceptionTarget);
      MutateSound(v, s1, a.machine.past, e.target);
      ConcludeSound(v, e, mode, r, m, Emit(a.machine, Assigned(e.target)), Some(a.outcome.truthy));
    }
  }

  lemma {:induction false} BinarySound(e: Expr, mode: Mode, st: State, v: View, m: Machine)
    requires e.Binary? && !Dead(st)
    requires Ready(v, st, BindExpr(e, mode, v.exceptionTarget, st), m.past)
    ensures Followed(v, e, mode, BindExpr(e, mode, v.exceptionTarget, st), m, Eval(e, m))
    decreases e, 0
  {
    hide Good, Into, Extends, Grows, Covered, Quiet, Valid, Conclude;
    var s1 := BindExpr(e.left, AsValue, v.exceptionTarget, st);
    var r := BindExpr(e.right, AsValue, v.exceptionTarget, s1);
    ExprGrows(e.left, AsValue, v.exceptionTarget, st);
    GrowsExtends(ModeTargets(AsValue) + Optional(v.exceptionTarget), st, s1);
    ExprGrows(e.right, AsValue, v.exceptionTarget, s1);
    GrowsExtends(ModeTargets(AsValue) + Optional(v.exceptionTarget), s1, r);
    ReadyFirst(v, st, s1, r, m.past);
    ExprSound(e.left, AsValue, st, v, m);
    var a := Eval(e.left, m);
    if a.outcome.Value? {
      ArrivedGood(v, e.left, AsValue, s1, a);
      ReadyNext(v, st, s1, r, a.machine.past);
      ExprSound(e.right, AsValue, s1, v, a.machine);
      var b := Eval(e.right, a.machine);
      if !r.effects {
        QuietTrans(m, a.machine, b.machine);
      }
      if b.outcome.Value? {
        ArrivedGood(v, e.right, AsValue, r, b);
        ConcludeSound(v, e, mode, r, m, b.machine, if e.operator.Comma? then Some(b.outcome.truthy) else None);
      }
    }
  }

  /** At a label of its own: from an arrival at `post` to the flow after a subexpression. */
  lemma WithoutEffectsSound(v: View, before: State, after: State, post: FlowId, m: Machine, m': Machine)
    requires Good(v.w, before.flow, v.fixed, m.past)
    requires Into(v.w, after.graph, post, v.fixed, m'.past) && IsJoin(after.graph, post)
    requires Extends(after.graph, v.w.graph)
    requires after.effects || Quiet(m, m')
    ensures Good(v.w, WithoutEffects(before, after, post).flow, v.fixed, m'.past)
  {
    hide Good, Into, Extends;
    if after.effects {
      IntoFinished(v.w, after.graph, post, v.fixed, m'.past);
    } else {
      GoodQuiet(v.w, before.flow, v.fixed, m, m');
    }
  }

  /** Making labels and resetting the effects changes nothing for a run. */
  lemma ReadyLabels(v: View, st: State, s0: State, nodes: seq<FlowNode>, out: State, past: seq<Event>)
    requires Ready(v, st, out, past)
    requires s0.graph == st.graph + nodes && s0.flow == st.flow && s0.marks == st.marks
    requires forall x :: x in nodes ==> IsLabel(x) && x.antecedents == []
    ensures Ready(v, s0, out, past) && Extends(st.graph, s0.graph)
  {
    hide Good, Into, Covered;
    AppendGrows(st, s0, nodes);
    GrowsExtends({}, st, s0);
    ExceptionLabelKept(st.graph, s0.graph, v.exceptionTarget);
  }

  /** A condition: its outcome has arrived at the right target. */
  ghost predicate Branched(v: View, t: FlowId, f: FlowId, out: State, m: Machine, r: ExprRun) {
    && (r.outcome.Value? ==> Into(v.w, out.graph, if r.outcome.truthy then t else f, v.fixed, r.machine.past))
    && (!r.outcome.Cut? ==> Covered(v, r.machine.past))
    && (out.effects || Quiet(m, r.machine))
  }

  lemma {:induction false} ConditionSound(e: Expr, t: FlowId, f: FlowId, st: State, v: View, m: Machine)
    requires Ready(v, st, BindCondition(e, t, f, v.exceptionTarget, st), m.past)
    requires IsJoin(st.graph, t) && IsJoin(st.graph, f)
    ensures Branched(v, t, f, BindCondition(e, t, f, v.exceptionTarget, st), m, Eval(e, m))
    decreases e, 2
  {
    hide Good, Into, Extends, Grows, Covered, Quiet, Valid, Conclude, AddConditions, Eval;
    var mode := AsBranch(t, f);
    var s1 := BindExpr(e, mode, v.exceptionTarget, st);
    var r := BindCondition(e, t, f, v.exceptionTarget, st);
    ExprGrows(e, mode, v.exceptionTarget, st);
    GrowsExtends(ModeTargets(mode) + Optional(v.exceptionTarget), st, s1);
    AddConditionsGrows(s1, t, f, Some(e));
    var s2 := AddConditions(s1, t, f, Some(e));
    GrowsExtends({t, f}, s1, s2);
    ExtendsRefl(s1.graph);
    ReadyFirst(v, st, s1, r, m.past);
    ExprSound(e, mode, st, v, m);
    LogicalBranches(e);
    AddConditionsKeepsFlow(s1, t, f, Some(e));
    var a := Eval(e, m);
    if a.outcome.Value? {
      var target, past := if a.outcome.truthy then t else f, a.machine.past;
      if Branches(e) {
        IntoExtends(v.w, s1.graph, r.graph, target, v.fixed, past);
      } else {
        JoinKept(st.graph, s1.graph, t);
        JoinKept(st.graph, s1.graph, f);
        ExtendsTrans(r.graph, v.settled, v.w.graph);
        AddConditionsSound(v, s1, t, f, e, a.outcome.truthy, past[..|past| - 1]);
        assert past[..|past| - 1] + [past[|past| - 1]] == past;
      }
    }
  }

  lemma AddConditionsKeepsFlow(st: State, t: FlowId, f: FlowId, e: Option<Expr>)
    ensures AddConditions(st, t, f, e).flow == st.flow
    ensures AddConditions(st, t, f, e).effects == st.effects
    ensures AddConditions(st, t, f, e).marks == st.marks
  {
  }

  lemma {:induction false} LogicalSound(e: Expr, mode: Mode, st: State, v: View, m: Machine)
    requires (e.Logical? || e.LogicalAssign?) && !Dead(st)
    requires Ready(v, st, BindExpr(e, mode, v.exceptionTarget, st), m.past)
    requires ModeLabels(st.graph, mode)
    ensures Followed(v, e, mode, BindExpr(e, mode, v.exceptionTarget, st), m, Eval(e, m))
    decreases e, 1, 1
  {
    hide Good, Into, Extends, Grows, Covered, Quiet, Valid, Conclude, BindLogicalLike, Eval;
    match mode
    case AsBranch(t, f) => LogicalLikeSound(e, t, f, st, v, m);
    case AsValue =>
      var post := |st.graph|;
      var s0 := NewNode(st, BranchLabel([])).(effects := false);
      var s1 := BindLogicalLike(e, post, post, v.exceptionTarget, s0);
      var r := WithoutEffects(st, s1, post);
      ReadyLabels(v, st, s0, [BranchLabel([])], r, m.past);
      LogicalLikeGrows(e, post, post, v.exceptionTarget, s0);
      GrowsExtends({post, post} + Optional(v.exceptionTarget), s0, s1);
      LogicalLikeSound(e, post, post, s0, v, m);
      JoinKept(s0.graph, s1.graph, post);
      ExtendsTrans(s1.graph, v.settled, v.w.graph);
      if Eval(e, m).outcome.Value? {
        WithoutEffectsSound(v, st, s1, post, m, Eval(e, m).machine);
      }
  }

  lemma {:induction false} LogicalLikeSound(e: Expr, t: FlowId, f: FlowId, st: State, v: View, m: Machine)
    requires e.Logical? || e.LogicalAssign?
    requires Ready(v, st, BindLogicalLike(e, t, f, v.exceptionTarget, st), m.past)
    requires IsJoin(st.graph, t) && IsJoin(st.graph, f)
    ensures Followed(v, e, AsBranch(t, f), BindLogicalLike(e, t, f, v.exceptionTarget, st), m, Eval(e, m))
    decreases e, 1, 0
  {
    hide Good, Into, Extends, Grows, Covered, Quiet, Valid, Conclude, BindAndOr, BindLogicalAssign, Eval;
    var r := BindLogicalLike(e, t, f, v.exceptionTarget, st);
    var s0 := NewNode(st, BranchLabel([]));
    ReadyLabels(v, st, s0, [BranchLabel([])], r, m.past);
    JoinKept(st.graph, s0.graph, t);
    JoinKept(st.graph, s0.graph, f);
    if e.Logical? {
      AndOrSound(e, t, f, |st.graph|, s0, v, m);
    } else {
      LogicalAssignSound(e, t, f, |st.graph|, s0, v, m);
    }
  }

  /** `a && b` and `a || b`, once the label before the right operand is made. */
  lemma {:induction false} AndOrSound(e: Expr, t: FlowId, f: FlowId, preRight: FlowId, st: State, v: View, m: Machine)
    requires e.Logical?
    requires Ready(v, st, BindAndOr(e, t, f, preRight, v.exceptionTarget, st), m.past)
    requires IsJoin(st.graph, t) && IsJoin(st.graph, f) && IsJoin(st.graph, preRight)
    ensures Followed(v, e, AsBranch(t, f), BindAndOr(e, t, f, preRight, v.exceptionTarget, st), m, Eval(e, m))
    decreases e, 0
  {
    hide Good, Into, Extends, Grows, Covered, Quiet, Valid, Conclude, BindCondition;
    var exc := v.exceptionTarget;
    var leftTrue, leftFalse := LeftTrue(e, t, preRight), LeftFalse(e, f, preRight);
    var s1 := BindCondition(e.left, leftTrue, leftFalse, exc, st);
    var s2 := Resume(s1, preRight);
    var r := BindCondition(e.right, t, f, exc, s2);
    ConditionGrows(e.left, leftTrue, leftFalse, exc, st);
    GrowsExtends({leftTrue, leftFalse} + Optional(exc), st, s1);
    ResumeGrows(s1, preRight);
    ConditionGrows(e.right, t, f, exc, s2);
    GrowsExtends({t, f} + Optional(exc), s2, r);
    ReadyFirst(v, st, s1, r, m.past);
    ConditionSound(e.left, leftTrue, leftFalse, st, v, m);
    var a := Eval(e.left, m);
    if a.outcome.Value? {
      if Decides(e.op, a.outcome.truthy) {
        IntoExtends(v.w, s1.graph, r.graph, if a.outcome.truthy then t else f, v.fixed, a.machine.past);
        ConcludeBranch(v, e, AsBranch(t, f), r, m, a.machine, a.outcome.truthy);
      } else {
        JoinKept(st.graph, s1.graph, preRight);
        JoinKept(st.graph, s1.graph, t);
        JoinKept(st.graph, s1.graph, f);
        ExtendsTrans(s1.graph, r.graph, v.settled);
        ExtendsTrans(s1.graph, v.settled, v.w.graph);
        IntoFinished(v.w, s1.graph, preRight, v.fixed, a.machine.past);
        ReadyNext(v, st, s2, r, a.machine.past);
        ConditionSound(e.right, t, f, s2, v, a.machine);
        var b := Eval(e.right, a.machine);
        if !r.effects {
          QuietTrans(m, a.machine, b.machine);
        }
        if b.outcome.Value? {
          ConcludeBranch(v, e, AsBranch(t, f), r, m, b.machine, b.outcome.truthy);
        }
      }
    }
  }

  /** `x &&= b` and `x ||= b`, once the label before the right operand is made. */
  lemma {:induction false} LogicalAssignSound(e: Expr, t: FlowId, f: FlowId, preRight: FlowId, st: State, v: View,
                                              m: Machine)
    requires e.LogicalAssign?
    requires Ready(v, st, BindLogicalAssign(e, t, f, preRight, v.exceptionTarget, st), m.past)
    requires IsJoin(st.graph, t) && IsJoin(st.graph, f) && IsJoin(st.graph, preRight)
    ensures Followed(v, e, AsBranch(t, f), BindLogicalAssign(e, t, f, preRight, v.exceptionTarget, st), m, Eval(e, m))
    decreases e, 0
  {
    hide Good, Into, Extends, Grows, Covered, Quiet, Valid, AddConditions, BindAssignedRight, EvalAssigned;
    var exc, x := v.exceptionTarget, Target(e);
    var leftTrue, leftFalse := LeftTrue(e, t, preRight), LeftFalse(e, f, preRight);
    var s1 := AddConditions(st, leftTrue, leftFalse, Some(x));
    var s2 := Resume(s1, preRight);
    var r := BindAssignedRight(e, t, f, exc, s2);
    AddConditionsGrows(st, leftTrue, leftFalse, Some(x));
    GrowsExtends({leftTrue, leftFalse}, st, s1);
    ResumeGrows(s1, preRight);
    AssignedRightGrows(e, t, f, exc, s2);
    GrowsExtends({t, f} + Optional(exc), s2, r);
    ExtendsTrans(s1.graph, r.graph, v.settled);
    ExtendsTrans(s1.graph, v.settled, v.w.graph);
    ConcludeQuiet(x, None, m);
    var a := Conclude(x, None, m);
    CoveredQuiet(v, m, a.machine);
    if a.outcome.Value? {
      AddConditionsSound(v, st, leftTrue, leftFalse, x, a.outcome.truthy, m.past);
      if Decides(e.op, a.outcome.truthy) {
        IntoExtends(v.w, s1.graph, r.graph, if a.outcome.truthy then t else f, v.fixed, a.machine.past);
        ConcludeBranch(v, e, AsBranch(t, f), r, m, a.machine, a.outcome.truthy);
      } else {
        JoinKept(st.graph, s1.graph, preRight);
        IntoFinished(v.w, s1.graph, preRight, v.fixed, a.machine.past);
        ReadyNext(v, st, s2, r, a.machine.past);
        LogicalAssignRight(e, t, f, st, s2, v, m, a.machine);
      }
    }
  }

  /** The right operand of a logical assignment, and the assignment. */
  lemma {:induction false} LogicalAssignRight(e: Expr, t: FlowId, f: FlowId, before: State, st: State, v: View,
                                              m: Machine, m': Machine)
    requires e.LogicalAssign?
    requires IsJoin(before.graph, t) && IsJoin(before.graph, f) && Extends(before.graph, st.graph)
    requires Ready(v, st, BindAssignedRight(e, t, f, v.exceptionTarget, st), m'.past)
    ensures Followed(v, e, AsBranch(t, f), BindAssignedRight(e, t, f, v.exceptionTarget, st), m, EvalAssigned(e, m'))
    decreases e, 0, 0
  {
    hide Good, Into, Extends, Grows, Covered, Quiet, Valid, AddConditions, BindExpr, Conclude;
    var exc := v.exceptionTarget;
    var s3 := BindExpr(e.right, AsValue, exc, st);
    var s4 := Mutate(s3, exc, e.target);
    var r := AddConditions(s4, t, f, Some(e));
    ExprGrows(e.right, AsValue, exc, st);
    GrowsExtends(ModeTargets(AsValue) + Optional(exc), st, s3);
    MutateGrows(s3, exc, e.target);
    GrowsExtends(Optional(exc), s3, s4);
    AddConditionsGrows(s4, t, f, Some(e));
    GrowsExtends({t, f}, s4, r);
    AddConditionsKeepsFlow(s4, t, f, Some(e));
    ExtendsTrans(s3.graph, s4.graph, r.graph);
    ReadyFirst(v, st, s3, r, m'.past);
    ExprSound(e.right, AsValue, st, v, m');
    var b := Eval(e.right, m');
    if b.outcome.Value? {
      ArrivedGood(v, e.right, AsValue, s3, b);
      ExceptionLabelKept(st.graph, s3.graph, exc);
      ExtendsTrans(s4.graph, r.graph, v.settled);
      MutateSound(v, s3, b.machine.past, e.target);
      ExtendsTrans(before.graph, st.graph, s3.graph);
      ExtendsTrans(before.graph, s3.graph, s4.graph);
      JoinKept(before.graph, s4.graph, t);
      JoinKept(before.graph, s4.graph, f);
      ExtendsTrans(r.graph, v.settled, v.w.graph);
      AssignedBranch(e, t, f, s4, v, m, Emit(b.machine, Assigned(e.target)), b.outcome.truthy);
    }
  }

  lemma AssignedBranch(e: Expr, t: FlowId, f: FlowId, st: State, v: View, m: Machine, m': Machine, truthy: bool)
    requires e.LogicalAssign? && Valid(st) && st.effects
    requires IsJoin(st.graph, t) && IsJoin(st.graph, f)
    requires Good(v.w, st.flow, v.fixed, m'.past) && Covered(v, m'.past)
    requires Extends(AddConditions(st, t, f, Some(e)).graph, v.w.graph)
    ensures Followed(v, e, AsBranch(t, f), AddConditions(st, t, f, Some(e)), m, Conclude(e, Some(truthy), m'))
  {
    hide Good, Into, Extends, Quiet, Valid, AddConditions;
    AddConditionsKeepsFlow(st, t, f, Some(e));
    ConcludeQuiet(e, Some(truthy), m');
    var r := Conclude(e, Some(truthy), m');
    CoveredQuiet(v, m', r.machine);
    if r.outcome.Value? {
      AddConditionsSound(v, st, t, f, e, truthy, m'.past);
    }
  }

  /** One arm of a conditional expression, from its label to the label after both. */
  lemma {:induction false} ArmSound(a: Expr, from: State, arm: FlowId, post: FlowId, r: State, v: View, m: Machine)
    requires Valid(from) && ExceptionLabel(from.graph, v.exceptionTarget)
    requires IsJoin(from.graph, arm) && IsJoin(from.graph, post)
    requires Into(v.w, from.graph, arm, v.fixed, m.past) && Covered(v, m.past)
    requires Extends(Join(BindExpr(a, AsValue, v.exceptionTarget, Resume(from, arm)), post).graph, r.graph)
    requires Extends(r.graph, v.settled) && Extends(v.settled, v.w.graph)
    ensures Eval(a, m).outcome.Value? ==> Into(v.w, r.graph, post, v.fixed, Eval(a, m).machine.past)
    ensures !Eval(a, m).outcome.Cut? ==> Covered(v, Eval(a, m).machine.past)
    ensures BindExpr(a, AsValue, v.exceptionTarget, Resume(from, arm)).effects || Quiet(m, Eval(a, m).machine)
    decreases a, 3
  {
    hide Good, Into, Extends, Grows, Covered, Quiet, Valid, BindExpr, Eval, AddAntecedent, FinishFlowLabel;
    var s1 := Resume(from, arm);
    var s2 := BindExpr(a, AsValue, v.exceptionTarget, s1);
    var s3 := Join(s2, post);
    ResumeGrows(from, arm);
    ExprGrows(a, AsValue, v.exceptionTarget, s1);
    GrowsExtends(ModeTargets(AsValue) + Optional(v.exceptionTarget), s1, s2);
    assert s2.flow < |s2.graph| by { FlowInRange(s2); }
    JoinFromGrows(s2, post, s2.flow);
    GrowsExtends({post}, s2, s3);
    ExtendsTrans(s2.graph, s3.graph, r.graph);
    ExtendsTrans(s1.graph, s2.graph, r.graph);
    ExtendsTrans(s1.graph, r.graph, v.settled);
    ExtendsTrans(s1.graph, v.settled, v.w.graph);
    ExtendsTrans(s2.graph, r.graph, v.settled);
    ExtendsTrans(s2.graph, v.settled, v.w.graph);
    IntoFinished(v.w, from.graph, arm, v.fixed, m.past);
    assert Ready(v, s1, s2, m.past);
    ExprSound(a, AsValue, s1, v, m);
    var b := Eval(a, m);
    if b.outcome.Value? {
      ArrivedGood(v, a, AsValue, s2, b);
      JoinKept(s1.graph, s2.graph, post);
      IntoAdded(v.w, s2.graph, post, s2.flow, v.fixed, b.machine.past);
      IntoExtends(v.w, s3.graph, r.graph, post, v.fixed, b.machine.past);
    }
  }

  lemma FlowInRange(st: State)
    requires Valid(st)
    ensures st.flow < |st.graph|
  {
  }

  lemma {:induction false} ConditionalSound(e: Expr, mode: Mode, st: State, v: View, m: Machine)
    requires e.Conditional? && !Dead(st)
    requires Ready(v, st, BindExpr(e, mode, v.exceptionTarget, st), m.past)
    ensures Followed(v, e, mode, BindExpr(e, mode, v.exceptionTarget, st), m, Eval(e, m))
    decreases e, 0
  {
    hide Good, Into, Extends, Grows, Covered, Quiet, Valid, Conclude, BindCondition, AddAntecedent, FinishFlowLabel;
    var exc, value := v.exceptionTarget, ModeTargets(AsValue) + Optional(v.exceptionTarget);
    var whenTrue, whenFalse, post := |st.graph|, |st.graph| + 1, |st.graph| + 2;
    var s0 := NewLabels(st, BRANCHES).(effects := false);
    var s1 := BindCondition(e.condition, whenTrue, whenFalse, exc, s0);
    var t2 := BindExpr(e.whenTrue, AsValue, exc, Resume(s1, whenTrue));
    var f1 := Join(t2, post);
    var f2 := BindExpr(e.whenFalse, AsValue, exc, Resume(f1, whenFalse));
    var r := Join(f2, post);
    ReadyLabels(v, st, s0, BRANCHES, BindExpr(e, mode, exc, st), m.past);
    assert IsJoin(s0.graph, whenTrue) && IsJoin(s0.graph, whenFalse) && IsJoin(s0.graph, post);
    ConditionalStages(e, exc, s0, s1, t2, f2, whenTrue, whenFalse, post);
    ExtendsTrans(s1.graph, f1.graph, r.graph);
    ReadyFirst(v, s0, s1, WithoutEffects(st, r, post), m.past);
    ConditionSound(e.condition, whenTrue, whenFalse, s0, v, m);
    ExtendsTrans(s0.graph, s1.graph, f1.graph);
    ExtendsTrans(s0.graph, f1.graph, r.graph);
    ExtendsTrans(r.graph, v.settled, v.w.graph);
    JoinKept(s0.graph, r.graph, post);
    JoinKept(s0.graph, s1.graph, whenTrue);
    JoinKept(s0.graph, s1.graph, post);
    JoinKept(s0.graph, f1.graph, whenFalse);
    JoinKept(s0.graph, f1.graph, post);
    ExceptionLabelKept(s0.graph, s1.graph, exc);
    ExceptionLabelKept(s0.graph, f1.graph, exc);
    var c := Eval(e.condition, m);
    if c.outcome.Value? {
      var arm := if c.outcome.truthy then e.whenTrue else e.whenFalse;
      var b := Eval(arm, c.machine);
      if c.outcome.truthy {
        ArmSound(e.whenTrue, s1, whenTrue, post, r, v, c.machine);
      } else {
        IntoExtends(v.w, s1.graph, f1.graph, whenFalse, v.fixed, c.machine.past);
        ExtendsRefl(r.graph);
        ArmSound(e.whenFalse, f1, whenFalse, post, r, v, c.machine);
      }
      if !r.effects {
        QuietTrans(m, c.machine, b.machine);
      }
      if b.outcome.Value? {
        WithoutEffectsSound(v, st, r, post, m, b.machine);
        ConcludeSound(v, e, mode, WithoutEffects(st, r, post), m, b.machine, Some(b.outcome.truthy));
      }
    }
  }

  /** How the states of a conditional expression follow one another. */
  lemma ConditionalStages(e: Expr, exc: Option<FlowId>, s0: State, s1: State, t2: State, f2: State,
                          whenTrue: FlowId, whenFalse: FlowId, post: FlowId)
    requires e.Conditional? && Valid(s0)
    requires s1 == BindCondition(e.condition, whenTrue, whenFalse, exc, s0)
    requires t2 == BindExpr(e.whenTrue, AsValue, exc, Resume(s1, whenTrue))
    requires f2 == BindExpr(e.whenFalse, AsValue, exc, Resume(Join(t2, post), whenFalse))
    ensures Valid(s1) && Valid(Join(t2, post)) && Valid(f2) && Valid(Join(f2, post))
    ensures Extends(s0.graph, s1.graph) && Extends(s1.graph, Join(t2, post).graph)
    ensures Extends(Join(t2, post).graph, Join(f2, post).graph)
    ensures (s1.effects ==> t2.effects) && (t2.effects ==> f2.effects)
  {
    hide Extends, Grows, Valid, BindCondition, BindExpr, AddAntecedent, FinishFlowLabel;
    var value := ModeTargets(AsValue) + Optional(exc);
    var t1 := Resume(s1, whenTrue);
    var f0 := Join(t2, post);
    var f1 := Resume(f0, whenFalse);
    ConditionGrows(e.condition, whenTrue, whenFalse, exc, s0);
    GrowsExtends({whenTrue, whenFalse} + Optional(exc), s0, s1);
    ResumeGrows(s1, whenTrue);
    ExprGrows(e.whenTrue, AsValue, exc, t1);
    GrowsExtends(value, t1, t2);
    FlowInRange(t2);
    JoinFromGrows(t2, post, t2.flow);
    GrowsExtends({post}, t2, f0);
    ExtendsTrans(s1.graph, t2.graph, f0.graph);
    ResumeGrows(f0, whenFalse);
    ExprGrows(e.whenFalse, AsValue, exc, f1);
    GrowsExtends(value, f1, f2);
    FlowInRange(f2);
    JoinFromGrows(f2, post, f2.flow);
    GrowsExtends({post}, f2, Join(f2, post));
    ExtendsTrans(f0.graph, f2.graph, Join(f2, post).graph);
  }
}
