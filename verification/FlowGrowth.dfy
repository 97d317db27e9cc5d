/** Binding only ever adds to the graph, and of the nodes that exist only the targets in force gain
    antecedents. */
module FlowGrowth {
  import opened Wrappers
  import opened Syntax
  import opened FlowGraph
  import opened FlowBuilder

  ghost predicate InRange(g: Graph) {
    forall i, a :: 0 <= i < |g| && IsLabel(g[i]) && a in g[i].antecedents ==> a < |g|
  }

  /** A state that binding can start from: the two unreachable nodes exist and all ids are ids of nodes. */
  ghost predicate Valid(st: State) {
    && |st.graph| >= 2
    && st.graph[UNREACHABLE_FLOW].Unreachable?
    && st.graph[REPORTED_UNREACHABLE_FLOW].Unreachable?
    && st.flow < |st.graph|
    && InRange(st.graph)
  }

  /** From `a` to `b` nothing is lost, and of the nodes of `a` only those in `targets` have gained
      antecedents. */
  ghost predicate Grows(targets: set<FlowId>, a: State, b: State) {
    && Touches(targets, a.graph, b.graph)
    && a.marks <= b.marks
  }

  function Optional(t: Option<FlowId>): set<FlowId> {
    if t.Some? then {t.value} else {}
  }

  function ModeTargets(mode: Mode): set<FlowId> {
    match mode
    case AsValue => {}
    case AsBranch(t, f) => {t, f}
  }

  function LabelTargets(labels: seq<ActiveLabel>): set<FlowId> {
    if labels == [] then {}
    else {labels[0].breakTarget} + Optional(labels[0].continueTarget) + LabelTargets(labels[1..])
  }

  function Targets(ctx: Context): set<FlowId> {
    Optional(ctx.breakTarget) + Optional(ctx.continueTarget) + Optional(ctx.returnTarget)
    + Optional(ctx.exceptionTarget) + LabelTargets(ctx.labels)
  }

  // ----- composition -----

  lemma ExtendsTrans(a: Graph, b: Graph, c: Graph)
    requires Extends(a, b) && Extends(b, c)
    ensures Extends(a, c)
  {
    forall i | 0 <= i < |a|
      ensures Refines(a[i], c[i])
    {
      assert Refines(a[i], b[i]) && Refines(b[i], c[i]);
    }
  }

  lemma ExtendsRefl(g: Graph)
    ensures Extends(g, g)
  {
  }

  lemma Begin(targets: set<FlowId>, a: State)
    ensures Grows(targets, a, a)
  {
  }

  /** One more step. Targets made since `a` do not matter to the nodes of `a`. */
  lemma Step(targets: set<FlowId>, a: State, b: State, inner: set<FlowId>, c: State)
    requires Grows(targets, a, b) && Grows(inner, b, c)
    requires forall i :: i in inner && i < |a.graph| ==> i in targets
    ensures Grows(targets, a, c)
  {
    ExtendsTrans(a.graph, b.graph, c.graph);
  }

  lemma GrowsExtends(targets: set<FlowId>, a: State, b: State)
    requires Grows(targets, a, b)
    ensures Extends(a.graph, b.graph) && a.marks <= b.marks
    ensures |a.graph| <= |b.graph|
  {
  }

  // ----- single steps -----

  /** Flow, effects and explicit returns may change at will. */
  lemma MoveGrows(a: State, b: State)
    requires Valid(a) && a.graph == b.graph && a.marks <= b.marks && b.flow < |b.graph|
    ensures Grows({}, a, b)
    ensures Valid(b)
  {
  }

  lemma AppendGrows(a: State, b: State, nodes: seq<FlowNode>)
    requires Valid(a) && b.graph == a.graph + nodes && b.marks == a.marks
    requires b.flow < |b.graph| && forall n, x :: n in nodes && IsLabel(n) && x in n.antecedents ==> x < |b.graph|
    ensures Grows({}, a, b)
    ensures Valid(b)
  {
    forall i, x | 0 <= i < |b.graph| && IsLabel(b.graph[i]) && x in b.graph[i].antecedents
      ensures x < |b.graph|
    {
      if i < |a.graph| {
        assert b.graph[i] == a.graph[i];
      } else {
        assert b.graph[i] == nodes[i - |a.graph|];
      }
    }
  }

  lemma JoinFromGrows(st: State, join: FlowId, from: FlowId)
    requires Valid(st)
    requires from < |st.graph|
    ensures Grows({join}, st, JoinFrom(st, join, from))
    ensures Valid(JoinFrom(st, join, from))
    ensures |JoinFrom(st, join, from).graph| == |st.graph|
  {

  }

  lemma ResumeGrows(st: State, join: FlowId)
    requires Valid(st)
    ensures Grows({}, st, Resume(st, join))
    ensures Valid(Resume(st, join))
  {
    var list := Antecedents(st.graph, join);
    assert list != [] ==> list[0] in st.graph[join].antecedents;
  }

  lemma JoinResumeGrows(st: State, join: FlowId, next: FlowId)
    requires Valid(st)
    ensures Grows({join}, st, Resume(Join(st, join), next))
    ensures Valid(Resume(Join(st, join), next))
  {
    JoinFromGrows(st, join, st.flow);
    ResumeGrows(Join(st, join), next);
    Step({join}, st, Join(st, join), {}, Resume(Join(st, join), next));
  }

  lemma MutateGrows(st: State, exceptionTarget: Option<FlowId>, x: string)
    requires Valid(st)
    ensures Grows(Optional(exceptionTarget), st, Mutate(st, exceptionTarget, x))
    ensures Valid(Mutate(st, exceptionTarget, x))
  {
    var s0 := st.(graph := st.graph + [Assignment(x, st.flow)], flow := |st.graph|, effects := true);
    AppendGrows(st, s0, [Assignment(x, st.flow)]);
    if exceptionTarget.Some? {
      JoinFromGrows(s0, exceptionTarget.value, |st.graph|);
    }
  }

  lemma AddConditionGrows(st: State, join: FlowId, sense: bool, e: Option<Expr>)
    requires Valid(st)
    ensures Grows({join}, st, AddCondition(st, join, sense, e))
    ensures Valid(AddCondition(st, join, sense, e))
  {
    var (g, f) := CreateCondition(st.graph, sense, e, st.flow);
    var s0 := st.(graph := g);
    AppendGrows(st, s0, g[|st.graph|..]);
    JoinFromGrows(s0, join, f);
    Step({join}, st, s0, {join}, JoinFrom(s0, join, f));
  }

  lemma AddConditionsGrows(st: State, t: FlowId, f: FlowId, e: Option<Expr>)
    requires Valid(st)
    ensures Grows({t, f}, st, AddConditions(st, t, f, e))
    ensures Valid(AddConditions(st, t, f, e))
  {
    hide Grows, InRange;
    var s1 := AddCondition(st, t, true, e);
    AddConditionGrows(st, t, true, e);
    AddConditionGrows(s1, f, false, e);
    Begin({t, f}, st);
    Step({t, f}, st, st, {t}, s1);
    Step({t, f}, st, s1, {f}, AddConditions(st, t, f, e));
  }

  // ----- expressions -----

  lemma {:induction false} ExprGrows(e: Expr, mode: Mode, exceptionTarget: Option<FlowId>, st: State)
    requires Valid(st)
    ensures var r := BindExpr(e, mode, exceptionTarget, st);
            && Grows(ModeTargets(mode) + Optional(exceptionTarget), st, r) && Valid(r)
            && (st.effects ==> r.effects)
    decreases e, 1
  {
    hide Grows, InRange;
    var all := ModeTargets(mode) + Optional(exceptionTarget);
    var value := ModeTargets(AsValue) + Optional(exceptionTarget);
    var r := BindExpr(e, mode, exceptionTarget, st);
    Begin(all, st);
    if !Dead(st) {
      match e
      case Paren(x) => ExprGrows(x, mode, exceptionTarget, st);
      case Not(x) =>
        ExprGrows(x, Negated(mode), exceptionTarget, st);
        assert ModeTargets(Negated(mode)) == ModeTargets(mode);
      case Logical(_, _, _) => LogicalGrows(e, mode, exceptionTarget, st);
      case LogicalAssign(_, _, _, _) => LogicalGrows(e, mode, exceptionTarget, st);
      case Assign(x, _, a) =>
        var s1 := BindExpr(a, AsValue, exceptionTarget, st);
        ExprGrows(a, AsValue, exceptionTarget, st);
        Step(all, st, st, value, s1);
        MutateGrows(s1, exceptionTarget, x);
        Step(all, st, s1, Optional(exceptionTarget), r);
      case Conditional(_, _, _) => ConditionalGrows(e, mode, exceptionTarget, st);
      case Binary(_, a, b) =>
        var s1 := BindExpr(a, AsValue, exceptionTarget, st);
        ExprGrows(a, AsValue, exceptionTarget, st);
        Step(all, st, st, value, s1);
        ExprGrows(b, AsValue, exceptionTarget, s1);
        Step(all, st, s1, value, r);
      case Call(_, _, a) =>
        ExprGrows(a, AsValue, exceptionTarget, st);
        Step(all, st, st, value, r);
      case _ =>
    }
  }

  lemma {:induction false} ConditionalGrows(e: Expr, mode: Mode, exceptionTarget: Option<FlowId>, st: State)
    requires Valid(st)
    requires e.Conditional? && !Dead(st)
    ensures var r := BindExpr(e, mode, exceptionTarget, st);
            && Grows(ModeTargets(mode) + Optional(exceptionTarget), st, r) && Valid(r)
            && (st.effects ==> r.effects)
    decreases e, 0
  {
    hide Grows, InRange, AddAntecedent, FinishFlowLabel, BindCondition;
    var all := ModeTargets(mode) + Optional(exceptionTarget);
    var value := ModeTargets(AsValue) + Optional(exceptionTarget);
    var whenTrue, whenFalse, post := |st.graph|, |st.graph| + 1, |st.graph| + 2;
    var s0 := NewLabels(st, BRANCHES).(effects := false);
    AppendGrows(st, s0, BRANCHES);
    Begin(all, st);
    Step(all, st, st, {}, s0);
    var s1 := BindCondition(e.condition, whenTrue, whenFalse, exceptionTarget, s0);
    ConditionGrows(e.condition, whenTrue, whenFalse, exceptionTarget, s0);
    Step(all, st, s0, {whenTrue, whenFalse} + Optional(exceptionTarget), s1);
    var t1 := Resume(s1, whenTrue);
    ResumeGrows(s1, whenTrue);
    Step(all, st, s1, {}, t1);
    var t2 := BindExpr(e.whenTrue, AsValue, exceptionTarget, t1);
    ExprGrows(e.whenTrue, AsValue, exceptionTarget, t1);
    Step(all, st, t1, value, t2);
    var f1 := Resume(Join(t2, post), whenFalse);
    JoinResumeGrows(t2, post, whenFalse);
    Step(all, st, t2, {post}, f1);
    var f2 := BindExpr(e.whenFalse, AsValue, exceptionTarget, f1);
    ExprGrows(e.whenFalse, AsValue, exceptionTarget, f1);
    Step(all, st, f1, value, f2);
    JoinFromGrows(f2, post, f2.flow);
    Step(all, st, f2, {post}, Join(f2, post));
    WithoutEffectsGrows(all, st, Join(f2, post), post);
  }

  lemma WithoutEffectsGrows(all: set<FlowId>, st: State, after: State, post: FlowId)
    requires Valid(st) && Valid(after)
    requires Grows(all, st, after)
    ensures Grows(all, st, WithoutEffects(st, after, post))
    ensures Valid(WithoutEffects(st, after, post))
  {
    ResumeGrows(after, post);
  }

  lemma {:induction false} LogicalGrows(e: Expr, mode: Mode, exceptionTarget: Option<FlowId>, st: State)
    requires Valid(st)
    requires e.Logical? || e.LogicalAssign?
    ensures var r := BindLogical(e, mode, exceptionTarget, st);
            && Grows(ModeTargets(mode) + Optional(exceptionTarget), st, r) && Valid(r)
            && (st.effects ==> r.effects)
    decreases e, 1, 1
  {
    hide Grows, InRange;
    match mode
    case AsBranch(t, f) => LogicalLikeGrows(e, t, f, exceptionTarget, st);
    case AsValue =>
      var all := ModeTargets(mode) + Optional(exceptionTarget);
      var post := |st.graph|;
      var s0 := NewNode(st, BranchLabel([])).(effects := false);
      var s1 := BindLogicalLike(e, post, post, exceptionTarget, s0);
      AppendGrows(st, s0, [BranchLabel([])]);
      Begin(all, st);
      Step(all, st, st, {}, s0);
      LogicalLikeGrows(e, post, post, exceptionTarget, s0);
      Step(all, st, s0, {post, post} + Optional(exceptionTarget), s1);
      WithoutEffectsGrows(all, st, s1, post);
  }

  lemma {:induction false} LogicalLikeGrows(e: Expr, t: FlowId, f: FlowId, exceptionTarget: Option<FlowId>, st: State)
    requires Valid(st)
    requires e.Logical? || e.LogicalAssign?
    ensures var r := BindLogicalLike(e, t, f, exceptionTarget, st);
            && Grows({t, f} + Optional(exceptionTarget), st, r) && Valid(r)
            && (st.effects ==> r.effects)
    decreases e, 1, 0
  {
    hide Grows, InRange, BindAndOr, BindLogicalAssign;
    var all, preRight := {t, f} + Optional(exceptionTarget), |st.graph|;
    var s0 := NewNode(st, BranchLabel([]));
    AppendGrows(st, s0, [BranchLabel([])]);
    Begin(all, st);
    Step(all, st, st, {}, s0);
    if e.Logical? {
      AndOrGrows(e, t, f, preRight, exceptionTarget, s0);
    } else {
      LogicalAssignGrows(e, t, f, preRight, exceptionTarget, s0);
    }
    Step(all, st, s0, {t, f, preRight} + Optional(exceptionTarget), BindLogicalLike(e, t, f, exceptionTarget, st));
  }

  lemma {:induction false} AndOrGrows(e: Expr, t: FlowId, f: FlowId, preRight: FlowId, exceptionTarget: Option<FlowId>,
                                      st: State)
    requires Valid(st)
    requires e.Logical?
    ensures var r := BindAndOr(e, t, f, preRight, exceptionTarget, st);
            && Grows({t, f, preRight} + Optional(exceptionTarget), st, r) && Valid(r)
            && (st.effects ==> r.effects)
    decreases e, 0
  {
    hide Grows, InRange, BindCondition;
    var all := {t, f, preRight} + Optional(exceptionTarget);
    var leftTrue, leftFalse := LeftTrue(e, t, preRight), LeftFalse(e, f, preRight);
    var s1 := BindCondition(e.left, leftTrue, leftFalse, exceptionTarget, st);
    Begin(all, st);
    ConditionGrows(e.left, leftTrue, leftFalse, exceptionTarget, st);
    Step(all, st, st, {leftTrue, leftFalse} + Optional(exceptionTarget), s1);
    var s2 := Resume(s1, preRight);
    ResumeGrows(s1, preRight);
    Step(all, st, s1, {}, s2);
    ConditionGrows(e.right, t, f, exceptionTarget, s2);
    Step(all, st, s2, {t, f} + Optional(exceptionTarget), BindAndOr(e, t, f, preRight, exceptionTarget, st));
  }

  lemma {:induction false} LogicalAssignGrows(e: Expr, t: FlowId, f: FlowId, preRight: FlowId,
                                              exceptionTarget: Option<FlowId>, st: State)
    requires Valid(st)
    requires e.LogicalAssign?
    ensures var r := BindLogicalAssign(e, t, f, preRight, exceptionTarget, st);
            && Grows({t, f, preRight} + Optional(exceptionTarget), st, r) && Valid(r)
            && r.effects
    decreases e, 0
  {
    hide Grows, InRange, AddConditions, BindAssignedRight;
    var all := {t, f, preRight} + Optional(exceptionTarget);
    var leftTrue, leftFalse := LeftTrue(e, t, preRight), LeftFalse(e, f, preRight);
    var s1 := AddConditions(st, leftTrue, leftFalse, Some(Target(e)));
    Begin(all, st);
    AddConditionsGrows(st, leftTrue, leftFalse, Some(Target(e)));
    Step(all, st, st, {leftTrue, leftFalse}, s1);
    var s2 := Resume(s1, preRight);
    ResumeGrows(s1, preRight);
    Step(all, st, s1, {}, s2);
    AssignedRightGrows(e, t, f, exceptionTarget, s2);
    Step(all, st, s2, {t, f} + Optional(exceptionTarget), BindLogicalAssign(e, t, f, preRight, exceptionTarget, st));
  }

  lemma {:induction false} AssignedRightGrows(e: Expr, t: FlowId, f: FlowId, exceptionTarget: Option<FlowId>, st: State)
    requires Valid(st)
    requires e.LogicalAssign?
    ensures var r := BindAssignedRight(e, t, f, exceptionTarget, st);
            && Grows({t, f} + Optional(exceptionTarget), st, r) && Valid(r)
            && r.effects
    decreases e, 0, 0
  {
    hide Grows, InRange, BindExpr;
    var all := {t, f} + Optional(exceptionTarget);
    var s1 := BindExpr(e.right, AsValue, exceptionTarget, st);
    Begin(all, st);
    ExprGrows(e.right, AsValue, exceptionTarget, st);
    Step(all, st, st, ModeTargets(AsValue) + Optional(exceptionTarget), s1);
    var s2 := Mutate(s1, exceptionTarget, e.target);
    MutateGrows(s1, exceptionTarget, e.target);
    Step(all, st, s1, Optional(exceptionTarget), s2);
    AddConditionsGrows(s2, t, f, Some(e));
    Step(all, st, s2, {t, f}, BindAssignedRight(e, t, f, exceptionTarget, st));
  }

  lemma {:induction false} ConditionGrows(e: Expr, t: FlowId, f: FlowId, exceptionTarget: Option<FlowId>, st: State)
    requires Valid(st)
    ensures var r := BindCondition(e, t, f, exceptionTarget, st);
            && Grows({t, f} + Optional(exceptionTarget), st, r) && Valid(r)
            && (st.effects ==> r.effects)
    decreases e, 2
  {
    hide Grows, InRange;
    var all := {t, f} + Optional(exceptionTarget);
    var s1 := BindExpr(e, AsBranch(t, f), exceptionTarget, st);
    ExprGrows(e, AsBranch(t, f), exceptionTarget, st);
    assert ModeTargets(AsBranch(t, f)) == {t, f};
    AddConditionsGrows(s1, t, f, Some(e));
    Step(all, st, s1, {t, f}, AddConditions(s1, t, f, Some(e)));
  }

  lemma OptionalGrows(e: Option<Expr>, exceptionTarget: Option<FlowId>, st: State)
    requires Valid(st)
    ensures Grows(Optional(exceptionTarget), st, BindOptional(e, exceptionTarget, st))
    ensures Valid(BindOptional(e, exceptionTarget, st))
  {
    hide Grows, InRange;
    Begin(Optional(exceptionTarget), st);
    if e.Some? {
      ExprGrows(e.value, AsValue, exceptionTarget, st);
      Step(Optional(exceptionTarget), st, st, ModeTargets(AsValue) + Optional(exceptionTarget), BindOptional(e, exceptionTarget, st));
    }
  }

  lemma OptionalConditionGrows(e: Option<Expr>, t: FlowId, f: FlowId, exceptionTarget: Option<FlowId>, st: State)
    requires Valid(st)
    ensures Grows({t, f} + Optional(exceptionTarget), st, BindOptionalCondition(e, t, f, exceptionTarget, st))
    ensures Valid(BindOptionalCondition(e, t, f, exceptionTarget, st))
  {
    hide Grows, InRange;
    match e
    case None =>
      Begin({t, f} + Optional(exceptionTarget), st);
      AddConditionsGrows(st, t, f, None);
      Step({t, f} + Optional(exceptionTarget), st, st, {t, f}, BindOptionalCondition(e, t, f, exceptionTarget, st));
    case Some(x) => ConditionGrows(x, t, f, exceptionTarget, st);
  }

  // ----- targets -----

  lemma {:induction false} LabelTargetsOfContinue(labels: seq<ActiveLabel>, wrapping: nat, target: FlowId)
    ensures LabelTargets(SetContinueTarget(labels, wrapping, target)) <= LabelTargets(labels) + {target}
  {
    if wrapping > 0 && labels != [] {
      LabelTargetsOfContinue(labels[1..], wrapping - 1, target);
      var r := SetContinueTarget(labels, wrapping, target);
      assert r == [labels[0].(continueTarget := Some(target))] + SetContinueTarget(labels[1..], wrapping - 1, target);
      assert r[1..] == SetContinueTarget(labels[1..], wrapping - 1, target);
    }
  }

  lemma LoopContextTargets(ctx: Context, b: FlowId, c: FlowId)
    ensures Targets(LoopContext(ctx, b, c)) <= Targets(ctx) + {b, c}
  {
    LabelTargetsOfContinue(ctx.labels, ctx.wrapping, c);
  }

  lemma LabelContextTargets(ctx: Context, name: string, post: FlowId)
    ensures Targets(LabelContext(ctx, name, post)) <= Targets(ctx) + {post}
  {
    var r := LabelContext(ctx, name, post);
    assert r.labels[1..] == ctx.labels;
  }

  lemma {:induction false} FoundLabelTargets(labels: seq<ActiveLabel>, name: string)
    ensures FindActiveLabel(labels, name).Some? ==>
              var l := FindActiveLabel(labels, name).value;
              l.breakTarget in LabelTargets(labels) && Optional(l.continueTarget) <= LabelTargets(labels)
  {
    if labels != [] {
      FoundLabelTargets(labels[1..], name);
    }
  }

  lemma JumpTargets(ctx: Context, d: Option<string>)
    ensures Optional(BreakTarget(ctx, d)) <= Targets(ctx)
    ensures Optional(ContinueTarget(ctx, d)) <= Targets(ctx)
  {
    if d.Some? {
      FoundLabelTargets(ctx.labels, d.value);
    }
  }

  lemma OwnTargets(ctx: Context)
    ensures Targets(Inner(ctx)) == Targets(ctx)
    ensures Optional(ctx.exceptionTarget) <= Targets(ctx) && Optional(ctx.returnTarget) <= Targets(ctx)
  {
  }

  lemma JumpGrows(st: State, target: Option<FlowId>)
    requires Valid(st)
    ensures Grows(Optional(target), st, Jump(st, target))
    ensures Valid(Jump(st, target))
  {
    if target.Some? {
      JoinFromGrows(st, target.value, st.flow);
    }
  }

  // ----- statements -----

  lemma {:induction false} StmtGrows(s: Stmt, ctx: Context, st: State)
    requires Valid(st)
    ensures Grows(Targets(ctx), st, BindStmt(s, ctx, st))
    ensures Valid(BindStmt(s, ctx, st))
    decreases s, 1
  {
    hide Grows, Targets, InRange;
    Begin(Targets(ctx), st);
    if s.Function? {
      ContainerGrows(s, st);
      Step(Targets(ctx), st, st, {}, BindStmt(s, ctx, st));
    } else if Dead(st) {
      DeadGrows(s, st);
      Step(Targets(ctx), st, st, {}, BindStmt(s, ctx, st));
    } else {
      MoveGrows(st, Record(s, st));
      Step(Targets(ctx), st, st, {}, Record(s, st));
      LiveGrows(s, ctx, Record(s, st));
      Step(Targets(ctx), st, Record(s, st), Targets(ctx), BindStmt(s, ctx, st));
    }
  }

  lemma {:induction false} LiveGrows(s: Stmt, ctx: Context, st: State)
    requires Valid(st)
    ensures Grows(Targets(ctx), st, BindLive(s, ctx, st))
    ensures Valid(BindLive(s, ctx, st))
    decreases s, 0, 3
  {
    hide Grows, Targets, InRange;
    var all, exc, r := Targets(ctx), Optional(ctx.exceptionTarget), BindLive(s, ctx, st);
    Begin(all, st);
    OwnTargets(ctx);
    match s
    case Empty(_) =>
    case Function(_, _, _) =>
    case Block(_, ss) => BlockGrows(ss, Inner(ctx), st);
    case Var(_, x, init) =>
      var s1 := BindOptional(init, ctx.exceptionTarget, st);
      OptionalGrows(init, ctx.exceptionTarget, st);
      Step(all, st, st, exc, s1);
      MutateGrows(s1, ctx.exceptionTarget, x);
      Step(all, st, s1, exc, Mutate(s1, ctx.exceptionTarget, x));
    case ExprStmt(_, e) =>
      var s1 := BindExpr(e, AsValue, ctx.exceptionTarget, st);
      ExprGrows(e, AsValue, ctx.exceptionTarget, st);
      Step(all, st, st, ModeTargets(AsValue) + exc, s1);
      AppendGrows(s1, CallEffect(s1, e), [AssertionCall(e, s1.flow)]);
      Step(all, st, s1, {}, CallEffect(s1, e));
    case If(_, _, _, _) => IfGrows(s, ctx, st);
    case While(_, _, _) => WhileGrows(s, ctx, st);
    case Do(_, _, _) => DoGrows(s, ctx, st);
    case For(_, _, _, _, _) => ForGrows(s, ctx, st);
    case ForOf(_, _, _, _) => ForOfGrows(s, ctx, st);
    case Break(_, d) =>
      JumpTargets(ctx, d);
      JumpGrows(st, BreakTarget(ctx, d));
      Step(all, st, st, Optional(BreakTarget(ctx, d)), r);
    case Continue(_, d) =>
      JumpTargets(ctx, d);
      JumpGrows(st, ContinueTarget(ctx, d));
      Step(all, st, st, Optional(ContinueTarget(ctx, d)), r);
    case Return(_, e) =>
      var s1 := BindOptional(e, ctx.exceptionTarget, st);
      OptionalGrows(e, ctx.exceptionTarget, st);
      Step(all, st, st, exc, s1);
      var s2 := Jump(s1, ctx.returnTarget);
      JumpGrows(s1, ctx.returnTarget);
      Step(all, st, s1, Optional(ctx.returnTarget), s2);
      TerminateGrows(all, st, s2, r);
    case Throw(_, e) =>
      var s1 := BindExpr(e, AsValue, ctx.exceptionTarget, st);
      ExprGrows(e, AsValue, ctx.exceptionTarget, st);
      Step(all, st, st, ModeTargets(AsValue) + exc, s1);
      TerminateGrows(all, st, s1, r);
    case Switch(_, _, _) => SwitchGrows(s, ctx, st);
    case Labeled(_, _, _) => LabeledGrows(s, ctx, st);
    case Try(_, _, _, _) => TryGrows(s, Inner(ctx), st);
  }

  lemma TerminateGrows(all: set<FlowId>, st: State, s1: State, r: State)
    requires Valid(s1)
    requires Grows(all, st, s1) && r.graph == s1.graph && r.marks == s1.marks && r.flow == UNREACHABLE_FLOW
    ensures Grows(all, st, r)
    ensures Valid(r)
  {
  }

  lemma {:induction false} IfGrows(s: Stmt, ctx: Context, st: State)
    requires Valid(st)
    requires s.If?
    ensures Grows(Targets(ctx), st, BindLive(s, ctx, st))
    ensures Valid(BindLive(s, ctx, st))
    decreases s, 0, 2
  {
    hide Grows, Targets, InRange, AddAntecedent, FinishFlowLabel;
    var all := Targets(ctx);
    OwnTargets(ctx);
    var thenLabel, elseLabel, post := |st.graph|, |st.graph| + 1, |st.graph| + 2;
    var s0 := NewLabels(st, BRANCHES);
    AppendGrows(st, s0, BRANCHES);
    Begin(all, st);
    Step(all, st, st, {}, s0);
    var s1 := BindCondition(s.cond, thenLabel, elseLabel, ctx.exceptionTarget, s0);
    ConditionGrows(s.cond, thenLabel, elseLabel, ctx.exceptionTarget, s0);
    Step(all, st, s0, {thenLabel, elseLabel} + Optional(ctx.exceptionTarget), s1);
    ResumeGrows(s1, thenLabel);
    Step(all, st, s1, {}, Resume(s1, thenLabel));
    var t := BindStmt(s.thenStmt, Inner(ctx), Resume(s1, thenLabel));
    StmtGrows(s.thenStmt, Inner(ctx), Resume(s1, thenLabel));
    Step(all, st, Resume(s1, thenLabel), all, t);
    var s3 := Resume(Join(t, post), elseLabel);
    JoinResumeGrows(t, post, elseLabel);
    Step(all, st, t, {post}, s3);
    var e := if s.elseStmt.Some? then BindStmt(s.elseStmt.value, Inner(ctx), s3) else s3;
    if s.elseStmt.Some? {
      StmtGrows(s.elseStmt.value, Inner(ctx), s3);
      Step(all, st, s3, all, e);
    }
    JoinResumeGrows(e, post, post);
    Step(all, st, e, {post}, BindLive(s, ctx, st));
  }

  lemma LoopEndGrows(all: set<FlowId>, st: State, s1: State, pre: FlowId, top: FlowId, post: FlowId)
    requires Valid(s1)
    requires Grows(all, st, s1) && |st.graph| <= pre
    requires top < |s1.graph|
    ensures Grows(all, st, Resume(JoinFrom(Join(s1, pre), pre, top), post))
    ensures Valid(Resume(JoinFrom(Join(s1, pre), pre, top), post))
    ensures Grows(all, st, Resume(JoinFrom(s1, pre, top), post))
    ensures Valid(Resume(JoinFrom(s1, pre, top), post))
  {
    JoinFromGrows(s1, pre, s1.flow);
    Step(all, st, s1, {pre}, Join(s1, pre));
    JoinFromGrows(s1, pre, top);
    Step(all, st, s1, {pre}, JoinFrom(s1, pre, top));
    JoinFromGrows(Join(s1, pre), pre, top);
    Step(all, st, Join(s1, pre), {pre}, JoinFrom(Join(s1, pre), pre, top));
    ResumeGrows(JoinFrom(s1, pre, top), post);
    Step(all, st, JoinFrom(s1, pre, top), {}, Resume(JoinFrom(s1, pre, top), post));
    ResumeGrows(JoinFrom(Join(s1, pre), pre, top), post);
    Step(all, st, JoinFrom(Join(s1, pre), pre, top), {}, Resume(JoinFrom(Join(s1, pre), pre, top), post));
  }

  lemma {:induction false} WhileGrows(s: Stmt, ctx: Context, st: State)
    requires Valid(st)
    requires s.While?
    ensures Grows(Targets(ctx), st, BindLive(s, ctx, st))
    ensures Valid(BindLive(s, ctx, st))
    decreases s, 0, 2
  {
    hide Grows, Targets, InRange, AddAntecedent, FinishFlowLabel;
    var all := Targets(ctx);
    OwnTargets(ctx);
    var preWhile, preBody, post := |st.graph|, |st.graph| + 1, |st.graph| + 2;
    var s0 := NewLabels(st, LOOP).(flow := preWhile);
    AppendGrows(st, s0, LOOP);
    Begin(all, st);
    Step(all, st, st, {}, s0);
    var s1 := BindCondition(s.cond, preBody, post, ctx.exceptionTarget, s0);
    ConditionGrows(s.cond, preBody, post, ctx.exceptionTarget, s0);
    Step(all, st, s0, {preBody, post} + Optional(ctx.exceptionTarget), s1);
    ResumeGrows(s1, preBody);
    Step(all, st, s1, {}, Resume(s1, preBody));
    var inner := LoopContext(ctx, post, preWhile);
    LoopContextTargets(ctx, post, preWhile);
    var s2 := BindStmt(s.body, inner, Resume(s1, preBody));
    StmtGrows(s.body, inner, Resume(s1, preBody));
    Step(all, st, Resume(s1, preBody), Targets(inner), s2);
    assert st.flow < |s2.graph| by { GrowsExtends(all, st, s2); }
    LoopEndGrows(all, st, s2, preWhile, st.flow, post);
  }

  lemma {:induction false} DoGrows(s: Stmt, ctx: Context, st: State)
    requires Valid(st)
    requires s.Do?
    ensures Grows(Targets(ctx), st, BindLive(s, ctx, st))
    ensures Valid(BindLive(s, ctx, st))
    decreases s, 0, 2
  {
    hide Grows, Targets, InRange, AddAntecedent, FinishFlowLabel;
    var all := Targets(ctx);
    OwnTargets(ctx);
    var preDo, preCondition, post := |st.graph|, |st.graph| + 1, |st.graph| + 2;
    var s0 := NewLabels(st, LOOP).(flow := preDo);
    AppendGrows(st, s0, LOOP);
    Begin(all, st);
    Step(all, st, st, {}, s0);
    var inner := LoopContext(ctx, post, preCondition);
    LoopContextTargets(ctx, post, preCondition);
    var b := BindStmt(s.body, inner, s0);
    StmtGrows(s.body, inner, s0);
    Step(all, st, s0, Targets(inner), b);
    var s1 := Resume(Join(b, preCondition), preCondition);
    JoinResumeGrows(b, preCondition, preCondition);
    Step(all, st, b, {preCondition}, s1);
    var s2 := BindCondition(s.cond, preDo, post, ctx.exceptionTarget, s1);
    ConditionGrows(s.cond, preDo, post, ctx.exceptionTarget, s1);
    Step(all, st, s1, {preDo, post} + Optional(ctx.exceptionTarget), s2);
    assert st.flow < |s2.graph| by { GrowsExtends(all, st, s2); }
    LoopEndGrows(all, st, s2, preDo, st.flow, post);
  }

  lemma {:induction false} ForGrows(s: Stmt, ctx: Context, st: State)
    requires Valid(st)
    requires s.For?
    ensures Grows(Targets(ctx), st, BindLive(s, ctx, st))
    ensures Valid(BindLive(s, ctx, st))
    decreases s, 0, 2
  {
    hide Grows, Targets, InRange, AddAntecedent, FinishFlowLabel;
    var all, exc := Targets(ctx), ctx.exceptionTarget;
    OwnTargets(ctx);
    var preLoop, preBody, post := |st.graph|, |st.graph| + 1, |st.graph| + 2;
    var s0 := NewLabels(st, LOOP);
    AppendGrows(st, s0, LOOP);
    Begin(all, st);
    Step(all, st, st, {}, s0);
    var s1 := BindOptional(s.init, exc, s0);
    OptionalGrows(s.init, exc, s0);
    Step(all, st, s0, Optional(exc), s1);
    GrowsExtends(all, st, s1);
    GrowsExtends(Optional(exc), s0, s1);
    var t0 := s1.(flow := preLoop);
    MoveGrows(s1, t0);
    Step(all, st, s1, {}, t0);
    var s2 := BindOptionalCondition(s.test, preBody, post, exc, t0);
    OptionalConditionGrows(s.test, preBody, post, exc, t0);
    Step(all, st, t0, {preBody, post} + Optional(exc), s2);
    ResumeGrows(s2, preBody);
    Step(all, st, s2, {}, Resume(s2, preBody));
    var inner := LoopContext(ctx, post, preLoop);
    LoopContextTargets(ctx, post, preLoop);
    var s3 := BindStmt(s.body, inner, Resume(s2, preBody));
    StmtGrows(s.body, inner, Resume(s2, preBody));
    Step(all, st, Resume(s2, preBody), Targets(inner), s3);
    var s4 := BindOptional(s.incr, exc, s3);
    OptionalGrows(s.incr, exc, s3);
    Step(all, st, s3, Optional(exc), s4);
    assert s1.flow < |s4.graph| by {
      GrowsExtends({preBody, post} + Optional(exc), t0, s2);
      GrowsExtends(Targets(inner), Resume(s2, preBody), s3);
      GrowsExtends(Optional(exc), s3, s4);
    }
    LoopEndGrows(all, st, s4, preLoop, s1.flow, post);
  }

  lemma {:induction false} ForOfGrows(s: Stmt, ctx: Context, st: State)
    requires Valid(st)
    requires s.ForOf?
    ensures Grows(Targets(ctx), st, BindLive(s, ctx, st))
    ensures Valid(BindLive(s, ctx, st))
    decreases s, 0, 2
  {
    hide Grows, Targets, InRange, AddAntecedent, FinishFlowLabel;
    var all, exc := Targets(ctx), ctx.exceptionTarget;
    OwnTargets(ctx);
    var preLoop, post := |st.graph|, |st.graph| + 1;
    var s0 := NewLabels(st, [LoopLabel([]), BranchLabel([])]);
    AppendGrows(st, s0, [LoopLabel([]), BranchLabel([])]);
    Begin(all, st);
    Step(all, st, st, {}, s0);
    var s1 := BindExpr(s.expr, AsValue, exc, s0);
    ExprGrows(s.expr, AsValue, exc, s0);
    Step(all, st, s0, ModeTargets(AsValue) + Optional(exc), s1);
    GrowsExtends(all, st, s1);
    GrowsExtends(ModeTargets(AsValue) + Optional(exc), s0, s1);
    var t0 := s1.(flow := preLoop);
    MoveGrows(s1, t0);
    Step(all, st, s1, {}, t0);
    JoinFromGrows(t0, post, preLoop);
    Step(all, st, t0, {post}, Join(t0, post));
    var s2 := Mutate(Join(t0, post), exc, s.target);
    MutateGrows(Join(t0, post), exc, s.target);
    Step(all, st, Join(t0, post), Optional(exc), s2);
    var inner := LoopContext(ctx, post, preLoop);
    LoopContextTargets(ctx, post, preLoop);
    var s3 := BindStmt(s.body, inner, s2);
    StmtGrows(s.body, inner, s2);
    Step(all, st, s2, Targets(inner), s3);
    assert s1.flow < |s3.graph| by {
      GrowsExtends(Optional(exc), Join(t0, post), s2);
      GrowsExtends(Targets(inner), s2, s3);
    }
    LoopEndGrows(all, st, s3, preLoop, s1.flow, post);
  }

  lemma {:induction false} LabeledGrows(s: Stmt, ctx: Context, st: State)
    requires Valid(st)
    requires s.Labeled?
    ensures Grows(Targets(ctx), st, BindLive(s, ctx, st))
    ensures Valid(BindLive(s, ctx, st))
    decreases s, 0, 2
  {
    hide Grows, Targets, InRange;
    var all, post := Targets(ctx), |st.graph|;
    var s0 := NewNode(st, BranchLabel([]));
    AppendGrows(st, s0, [BranchLabel([])]);
    Begin(all, st);
    Step(all, st, st, {}, s0);
    var inner := LabelContext(ctx, s.name, post);
    LabelContextTargets(ctx, s.name, post);
    var s1 := BindStmt(s.body, inner, s0);
    StmtGrows(s.body, inner, s0);
    Step(all, st, s0, Targets(inner), s1);
    JoinResumeGrows(s1, post, post);
    Step(all, st, s1, {post}, BindLive(s, ctx, st));
  }

  // ----- lists of statements -----

  lemma {:induction false} BlockGrows(ss: seq<Stmt>, ctx: Context, st: State)
    requires Valid(st)
    ensures Grows(Targets(ctx), st, BindBlock(ss, ctx, st))
    ensures Valid(BindBlock(ss, ctx, st))
    decreases ss, 1
  {
    hide Grows, Targets, InRange;
    Begin(Targets(ctx), st);
    if Dead(st) {
      DeadsGrow(ss, st);
      Step(Targets(ctx), st, st, {}, BindDeads(ss, st));
    } else {
      FunctionsGrow(ss, st);
      Step(Targets(ctx), st, st, {}, BindFunctions(ss, st));
      OthersGrow(ss, ctx, BindFunctions(ss, st));
      Step(Targets(ctx), st, BindFunctions(ss, st), Targets(ctx), BindBlock(ss, ctx, st));
    }
  }

  lemma {:induction false} FunctionsGrow(ss: seq<Stmt>, st: State)
    requires Valid(st)
    ensures Grows({}, st, BindFunctions(ss, st))
    ensures Valid(BindFunctions(ss, st))
    decreases ss, 0
  {
    hide Grows, InRange;
    Begin({}, st);
    if ss != [] {
      var s1 := if ss[0].Function? then BindContainer(ss[0], st) else st;
      if ss[0].Function? {
        ContainerGrows(ss[0], st);
      }
      FunctionsGrow(ss[1..], s1);
      Step({}, st, s1, {}, BindFunctions(ss, st));
    }
  }

  lemma {:induction false} OthersGrow(ss: seq<Stmt>, ctx: Context, st: State)
    requires Valid(st)
    ensures Grows(Targets(ctx), st, BindOthers(ss, ctx, st))
    ensures Valid(BindOthers(ss, ctx, st))
    decreases ss, 0
  {
    hide Grows, Targets, InRange;
    Begin(Targets(ctx), st);
    if ss != [] {
      var s1 := if ss[0].Function? then st else BindStmt(ss[0], ctx, st);
      if !ss[0].Function? {
        StmtGrows(ss[0], ctx, st);
      }
      OthersGrow(ss[1..], ctx, s1);
      Step(Targets(ctx), st, s1, Targets(ctx), BindOthers(ss, ctx, st));
    }
  }

  lemma {:induction false} EachGrows(ss: seq<Stmt>, ctx: Context, st: State)
    requires Valid(st)
    ensures Grows(Targets(ctx), st, BindEach(ss, ctx, st))
    ensures Valid(BindEach(ss, ctx, st))
    decreases ss, 0
  {
    hide Grows, Targets, InRange;
    Begin(Targets(ctx), st);
    if ss != [] {
      var s1 := BindStmt(ss[0], ctx, st);
      StmtGrows(ss[0], ctx, st);
      EachGrows(ss[1..], ctx, s1);
      Step(Targets(ctx), st, s1, Targets(ctx), BindEach(ss, ctx, st));
    }
  }

  // ----- try -----

  lemma TryContextTargets(s: Stmt, ctx: Context, returnLabel: FlowId, exceptionLabel: FlowId)
    requires s.Try?
    ensures Targets(TryContext(s, ctx, returnLabel, exceptionLabel)) <= Targets(ctx) + {returnLabel, exceptionLabel}
  {
  }

  lemma {:induction false} TryBlockGrows(s: Stmt, ctx: Context, st: State)
    requires Valid(st)
    requires s.Try?
    ensures Grows(Targets(ctx), st, BindTryBlock(s, ctx, st))
    ensures Valid(BindTryBlock(s, ctx, st))
    ensures |st.graph| + 3 <= |BindTryBlock(s, ctx, st).graph|
    decreases s, 0, 0
  {
    hide Grows, Targets, InRange, AddAntecedent, FinishFlowLabel;
    var all := Targets(ctx);
    var normalExit, returned, exceptions := |st.graph|, |st.graph| + 1, |st.graph| + 2;
    var s0 := NewLabels(st, BRANCHES);
    AppendGrows(st, s0, BRANCHES);
    Begin(all, st);
    Step(all, st, st, {}, s0);
    JoinFromGrows(s0, exceptions, s0.flow);
    Step(all, st, s0, {exceptions}, Join(s0, exceptions));
    var inner := TryContext(s, ctx, returned, exceptions);
    TryContextTargets(s, ctx, returned, exceptions);
    var s1 := BindBlock(s.block, inner, Join(s0, exceptions));
    BlockGrows(s.block, inner, Join(s0, exceptions));
    Step(all, st, Join(s0, exceptions), Targets(inner), s1);
    GrowsExtends(Targets(inner), Join(s0, exceptions), s1);
    JoinFromGrows(s1, normalExit, s1.flow);
    Step(all, st, s1, {normalExit}, Join(s1, normalExit));
  }

  lemma {:induction false} GuardedGrows(s: Stmt, ctx: Context, st: State)
    requires Valid(st)
    requires s.Try?
    ensures Grows(Targets(ctx), st, BindGuarded(s, ctx, st).state)
    ensures Valid(BindGuarded(s, ctx, st).state)
    ensures |st.graph| + 3 <= |BindGuarded(s, ctx, st).state.graph|
    decreases s, 0, 1
  {
    hide Grows, Targets, InRange, AddAntecedent, FinishFlowLabel;
    var all := Targets(ctx);
    var normalExit, returned, exceptions := |st.graph|, |st.graph| + 1, |st.graph| + 2;
    var s1 := BindTryBlock(s, ctx, st);
    TryBlockGrows(s, ctx, st);
    if s.handler.SomeBlock? {
      var c0 := Resume(s1, exceptions);
      ResumeGrows(s1, exceptions);
      Step(all, st, s1, {}, c0);
      var uncaught := |c0.graph|;
      var c1 := NewNode(c0, BranchLabel([]));
      AppendGrows(c0, c1, [BranchLabel([])]);
      Step(all, st, c0, {}, c1);
      JoinFromGrows(c1, uncaught, c1.flow);
      Step(all, st, c1, {uncaught}, Join(c1, uncaught));
      var inner := TryContext(s, ctx, returned, uncaught);
      TryContextTargets(s, ctx, returned, uncaught);
      var c2 := BindBlock(s.handler.statements, inner, Join(c1, uncaught));
      BlockGrows(s.handler.statements, inner, Join(c1, uncaught));
      Step(all, st, Join(c1, uncaught), Targets(inner), c2);
      GrowsExtends(Targets(inner), Join(c1, uncaught), c2);
      JoinFromGrows(c2, normalExit, c2.flow);
      Step(all, st, c2, {normalExit}, Join(c2, normalExit));
    }
  }

  lemma {:induction false} TryGrows(s: Stmt, ctx: Context, st: State)
    requires Valid(st)
    requires s.Try?
    ensures Grows(Targets(ctx), st, BindTry(s, ctx, st))
    ensures Valid(BindTry(s, ctx, st))
    decreases s, 0, 2
  {
    hide Grows, Targets, InRange;
    var all := Targets(ctx);
    OwnTargets(ctx);
    var normalExit, returned := |st.graph|, |st.graph| + 1;
    var Guarded(s1, exceptions) := BindGuarded(s, ctx, st);
    GuardedGrows(s, ctx, st);
    if s.finalizer.NoBlock? {
      ResumeGrows(s1, normalExit);
      Step(all, st, s1, {}, Resume(s1, normalExit));
    } else {
      var normalList, exceptionList, returnList :=
        Antecedents(s1.graph, normalExit), Antecedents(s1.graph, exceptions), Antecedents(s1.graph, returned);
      var finallyLabel := |s1.graph|;
      var node := FinallyLabel(normalList + (exceptionList + returnList));
      var s2 := NewNode(SealParts(s1, normalExit, exceptions, returned), node).(flow := finallyLabel);
      AntecedentsInRange(s1, normalExit);
      AntecedentsInRange(s1, exceptions);
      AntecedentsInRange(s1, returned);
      AppendGrows(s1, s2, [node]);
      Step(all, st, s1, {}, s2);
      var s3 := BindBlock(s.finalizer.statements, ctx, s2);
      BlockGrows(s.finalizer.statements, ctx, s2);
      Step(all, st, s2, all, s3);
      LeaveFinallyGrows(ctx, s3, finallyLabel, normalList, exceptionList, returnList);
      Step(all, st, s3, all, BindTry(s, ctx, st));
    }
  }

  lemma AntecedentsInRange(st: State, join: FlowId)
    requires Valid(st)
    ensures forall a :: a in Antecedents(st.graph, join) ==> a < |st.graph|
  {
  }

  lemma AddReducedGrows(st: State, target: Option<FlowId>, finallyLabel: FlowId, list: seq<FlowId>)
    requires Valid(st)
    ensures Grows(Optional(target), st, AddReduced(st, target, finallyLabel, list))
    ensures Valid(AddReduced(st, target, finallyLabel, list))
  {
    var node := ReduceLabel(finallyLabel, list, st.flow);
    var s1 := NewNode(st, node);
    AppendGrows(st, s1, [node]);
    if target.Some? {
      JoinFromGrows(s1, target.value, |st.graph|);
      Step(Optional(target), st, s1, {target.value}, JoinFrom(s1, target.value, |st.graph|));
    }
  }

  lemma LeaveFinallyGrows(ctx: Context, st: State, finallyLabel: FlowId,
                          normalList: seq<FlowId>, exceptionList: seq<FlowId>, returnList: seq<FlowId>)
    requires Valid(st)
    ensures Grows(Targets(ctx), st, LeaveFinally(ctx, st, finallyLabel, normalList, exceptionList, returnList))
    ensures Valid(LeaveFinally(ctx, st, finallyLabel, normalList, exceptionList, returnList))
  {
    hide Grows, Targets, InRange;
    var all := Targets(ctx);
    OwnTargets(ctx);
    Begin(all, st);
    if Dead(st) {
      TerminateGrows(all, st, st, st.(flow := UNREACHABLE_FLOW));
    } else {
      var s1 := AddReduced(st, ctx.returnTarget, finallyLabel, returnList);
      AddReducedGrows(st, ctx.returnTarget, finallyLabel, returnList);
      Step(all, st, st, Optional(ctx.returnTarget), s1);
      var s2 := AddReduced(s1, ctx.exceptionTarget, finallyLabel, exceptionList);
      AddReducedGrows(s1, ctx.exceptionTarget, finallyLabel, exceptionList);
      Step(all, st, s1, Optional(ctx.exceptionTarget), s2);
      var node := ReduceLabel(finallyLabel, normalList, s2.flow);
      var s3 := NewNode(s2, node).(flow := |s2.graph|);
      AppendGrows(s2, s3, [node]);
      Step(all, st, s2, {}, s3);
      TerminateGrows(all, st, s2, s2.(flow := UNREACHABLE_FLOW));
    }
  }

  // ----- switch -----

  lemma {:induction false} SwitchGrows(s: Stmt, ctx: Context, st: State)
    requires Valid(st)
    requires s.Switch?
    ensures Grows(Targets(ctx), st, BindSwitch(s, ctx, st))
    ensures Valid(BindSwitch(s, ctx, st))
    decreases s, 0, 0
  {
    hide Grows, Targets, InRange, AddAntecedent, FinishFlowLabel;
    var all, post := Targets(ctx), |st.graph|;
    OwnTargets(ctx);
    var s0 := NewNode(st, BranchLabel([]));
    AppendGrows(st, s0, [BranchLabel([])]);
    Begin(all, st);
    Step(all, st, st, {}, s0);
    var s1 := BindExpr(s.expr, AsValue, ctx.exceptionTarget, s0);
    ExprGrows(s.expr, AsValue, ctx.exceptionTarget, s0);
    Step(all, st, s0, ModeTargets(AsValue) + Optional(ctx.exceptionTarget), s1);
    GrowsExtends(all, st, s1);
    var inner := Inner(ctx).(breakTarget := Some(post));
    BreakContextTargets(ctx, post);
    var s2 := if Dead(s1) then BindDeadClauses(s.clauses, s1)
              else BindClauses(s, s.clauses, 0, s1.flow, UNREACHABLE_FLOW, inner, s1);
    if Dead(s1) {
      DeadClausesGrow(s.clauses, s1);
      Step(all, st, s1, {}, s2);
      GrowsExtends({}, s1, s2);
    } else {
      ClausesGrow(s, s.clauses, 0, s1.flow, UNREACHABLE_FLOW, inner, s1);
      Step(all, st, s1, Targets(inner), s2);
      GrowsExtends(Targets(inner), s1, s2);
    }
    JoinFromGrows(s2, post, s2.flow);
    var s3 := Join(s2, post);
    Step(all, st, s2, {post}, s3);
    var node := SwitchClause(s.id, 0, 0, s1.flow);
    var t0 := NewNode(s3, node);
    AppendGrows(s3, t0, [node]);
    Step(all, st, s3, {}, t0);
    var t1 := JoinFrom(t0, post, |s3.graph|);
    JoinFromGrows(t0, post, |s3.graph|);
    Step(all, st, t0, {post}, t1);
    var s4 := if HasDefault(s.clauses) then s3 else t1;
    ResumeGrows(s4, post);
    Step(all, st, s4, {}, Resume(s4, post));
  }

  lemma BreakContextTargets(ctx: Context, post: FlowId)
    ensures Targets(Inner(ctx).(breakTarget := Some(post))) <= Targets(ctx) + {post}
  {
  }

  lemma {:induction false} ClausesGrow(s: Stmt, rest: seq<Clause>, start: nat, pre: FlowId, fall: FlowId, ctx: Context,
                                       st: State)
    requires Valid(st)
    requires s.Switch? && |rest| <= |s.clauses|
    requires pre < |st.graph| && fall < |st.graph|
    ensures Grows(Targets(ctx), st, BindClauses(s, rest, start, pre, fall, ctx, st))
    ensures Valid(BindClauses(s, rest, start, pre, fall, ctx, st))
    decreases rest
  {
    hide Grows, Targets, InRange, BindClause, EnterGroup;
    var all := Targets(ctx);
    Begin(all, st);
    if rest != [] {
      var empty := rest[0].body == [] && |rest| > 1;
      var end := |s.clauses| - |rest| + 1;
      var s1 := if !empty then EnterGroup(s, start, end, pre, fall, st)
                else if fall == UNREACHABLE_FLOW then st.(flow := pre) else st;
      if empty {
        MoveGrows(st, s1);
      } else {
        EnterGroupGrows(s, start, end, pre, fall, st);
      }
      Step(all, st, st, {}, s1);
      GrowsExtends(all, st, s1);
      var s2 := BindClause(rest[0], pre, ctx, s1);
      ClauseGrows(rest[0], pre, ctx, s1);
      Step(all, st, s1, all, s2);
      GrowsExtends(all, st, s2);
      ClausesGrow(s, rest[1..], if empty then start else end, pre, if empty then fall else s2.flow, ctx, s2);
      Step(all, st, s2, all, BindClauses(s, rest, start, pre, fall, ctx, st));
    }
  }

  lemma EnterGroupGrows(s: Stmt, start: nat, end: nat, pre: FlowId, fall: FlowId, st: State)
    requires Valid(st)
    requires s.Switch?
    requires pre < |st.graph| && fall < |st.graph|
    ensures Grows({}, st, EnterGroup(s, start, end, pre, fall, st))
    ensures Valid(EnterGroup(s, start, end, pre, fall, st))
  {
    hide Grows, InRange;
    var preCase := |st.graph|;
    var s0 := NewNode(st, BranchLabel([]));
    AppendGrows(st, s0, [BranchLabel([])]);
    GrowsExtends({}, st, s0);
    var node := SwitchClause(s.id, start, end, pre);
    var t0 := NewNode(s0, node);
    AppendGrows(s0, t0, [node]);
    Step({}, st, s0, {}, t0);
    GrowsExtends({}, s0, t0);
    var s1 := if IsNarrowingSwitch(s.expr) then JoinFrom(t0, preCase, |s0.graph|) else JoinFrom(s0, preCase, pre);
    if IsNarrowingSwitch(s.expr) {
      JoinFromGrows(t0, preCase, |s0.graph|);
      Step({}, st, t0, {preCase}, s1);
    } else {
      JoinFromGrows(s0, preCase, pre);
      Step({}, st, s0, {preCase}, s1);
    }
    GrowsExtends({}, st, s1);
    JoinFromGrows(s1, preCase, fall);
    Step({}, st, s1, {preCase}, JoinFrom(s1, preCase, fall));
    ResumeGrows(JoinFrom(s1, preCase, fall), preCase);
    Step({}, st, JoinFrom(s1, preCase, fall), {}, EnterGroup(s, start, end, pre, fall, st));
  }

  lemma {:induction false} ClauseGrows(c: Clause, pre: FlowId, ctx: Context, st: State)
    requires Valid(st)
    requires pre < |st.graph|
    ensures Grows(Targets(ctx), st, BindClause(c, pre, ctx, st))
    ensures Valid(BindClause(c, pre, ctx, st))
    decreases c
  {
    hide Grows, Targets, InRange;
    var all, exc := Targets(ctx), ctx.exceptionTarget;
    OwnTargets(ctx);
    Begin(all, st);
    if Dead(st) {
      DeadsGrow(c.body, st);
      Step(all, st, st, {}, BindClause(c, pre, ctx, st));
    } else {
      var s1 := st;
      if c.test.Some? {
        var t0 := st.(flow := pre);
        MoveGrows(st, t0);
        Step(all, st, st, {}, t0);
        var t1 := BindExpr(c.test.value, AsValue, exc, t0);
        ExprGrows(c.test.value, AsValue, exc, t0);
        Step(all, st, t0, ModeTargets(AsValue) + Optional(exc), t1);
        GrowsExtends(all, st, t1);
        s1 := t1.(flow := st.flow);
        BackGrows(all, st, t1);
      }
      EachGrows(c.body, ctx, s1);
      Step(all, st, s1, all, BindClause(c, pre, ctx, st));
    }
  }

  lemma BackGrows(all: set<FlowId>, st: State, t: State)
    requires Valid(st) && Valid(t)
    requires Valid(st)
    requires Grows(all, st, t)
    ensures Grows(all, st, t.(flow := st.flow))
    ensures Valid(t.(flow := st.flow))
    ensures Valid(t.(flow := st.flow))
  {
  }

  // ----- unreachable code -----

  lemma {:induction false} DeadGrows(s: Stmt, st: State)
    requires Valid(st)
    ensures Grows({}, st, BindDead(s, st))
    ensures Valid(BindDead(s, st))
    decreases s, 0
  {
    hide Grows, InRange;
    var s0 := if IsReportable(s) && st.flow == UNREACHABLE_FLOW then st.(flow := REPORTED_UNREACHABLE_FLOW) else st;
    MoveGrows(st, s0);
    var r := BindDead(s, st);
    match s
    case Function(_, _, _) =>
      ContainerGrows(s, s0);
      Step({}, st, s0, {}, r);
    case Block(_, ss) =>
      DeadsGrow(ss, s0);
      Step({}, st, s0, {}, r);
    case If(_, _, a, b) =>
      DeadGrows(a, s0);
      Step({}, st, s0, {}, BindDead(a, s0));
      if b.Some? {
        DeadGrows(b.value, BindDead(a, s0));
        Step({}, st, BindDead(a, s0), {}, r);
      }
    case While(_, _, body) =>
      DeadGrows(body, s0);
      Step({}, st, s0, {}, r);
    case Do(_, body, _) =>
      DeadGrows(body, s0);
      Step({}, st, s0, {}, r);
    case For(_, _, _, _, body) =>
      DeadGrows(body, s0);
      Step({}, st, s0, {}, r);
    case ForOf(_, _, _, body) =>
      DeadGrows(body, s0);
      Step({}, st, s0, {}, r);
    case Labeled(_, _, body) =>
      DeadGrows(body, s0);
      Step({}, st, s0, {}, r);
    case Switch(_, _, clauses) =>
      DeadClausesGrow(clauses, s0);
      Step({}, st, s0, {}, r);
    case Try(_, b, h, f) =>
      var s1 := BindDeads(b, s0);
      DeadsGrow(b, s0);
      Step({}, st, s0, {}, s1);
      var s2 := if h.SomeBlock? then BindDeads(h.statements, s1) else s1;
      if h.SomeBlock? {
        DeadsGrow(h.statements, s1);
        Step({}, st, s1, {}, s2);
      }
      if f.SomeBlock? {
        DeadsGrow(f.statements, s2);
        Step({}, st, s2, {}, r);
      }
    case _ =>
  }

  lemma {:induction false} DeadsGrow(ss: seq<Stmt>, st: State)
    requires Valid(st)
    ensures Grows({}, st, BindDeads(ss, st))
    ensures Valid(BindDeads(ss, st))
    decreases ss, 0
  {
    hide Grows, InRange;
    Begin({}, st);
    if ss != [] {
      DeadGrows(ss[0], st);
      DeadsGrow(ss[1..], BindDead(ss[0], st));
      Step({}, st, BindDead(ss[0], st), {}, BindDeads(ss, st));
    }
  }

  lemma {:induction false} DeadClausesGrow(clauses: seq<Clause>, st: State)
    requires Valid(st)
    ensures Grows({}, st, BindDeadClauses(clauses, st))
    ensures Valid(BindDeadClauses(clauses, st))
    decreases clauses, 0
  {
    hide Grows, InRange;
    Begin({}, st);
    if clauses != [] {
      DeadsGrow(clauses[0].body, st);
      DeadClausesGrow(clauses[1..], BindDeads(clauses[0].body, st));
      Step({}, st, BindDeads(clauses[0].body, st), {}, BindDeadClauses(clauses, st));
    }
  }

  // ----- functions -----

  lemma {:induction false} ContainerGrows(s: Stmt, st: State)
    requires Valid(st)
    requires s.Function?
    ensures Grows({}, st, BindContainer(s, st))
    ensures Valid(BindContainer(s, st))
    decreases s, 0, 0
  {
    hide Grows, Targets, InRange;
    var start := |st.graph|;
    var created := if s.isConstructor then [Start, BranchLabel([])] else [Start];
    var s0 := NewLabels(st, created).(flow := start, explicitReturn := false);
    AppendGrows(st, s0, created);
    var inner := ContainerContext(s, start);
    ContainerTargets(s, start);
    var s1 := BindBlock(s.statements, inner, s0);
    BlockGrows(s.statements, inner, s0);
    Step({}, st, s0, Targets(inner), s1);
    LeaveContainerGrows(s, st, s1);
  }

  lemma ContainerTargets(s: Stmt, start: FlowId)
    requires s.Function?
    ensures Targets(ContainerContext(s, start)) <= {start + 1}
  {
    assert LabelTargets([]) == {};
  }

  lemma LeaveContainerGrows(s: Stmt, before: State, st: State)
    requires Valid(st)
    requires s.Function? && Grows({}, before, st) && Valid(before)
    ensures Grows({}, before, LeaveContainer(s, before, st))
    ensures Valid(LeaveContainer(s, before, st))
  {
    hide Grows, InRange, AddAntecedent, FinishFlowLabel;
    var s1 := if Dead(st) then st
              else st.(marks := st.marks + {HasImplicitReturn(s.id), EndFlow(s.id, st.flow)}
                                + (if st.explicitReturn then {HasExplicitReturn(s.id)} else {}));
    MoveGrows(st, s1);
    Step({}, before, st, {}, s1);
    var s2 := s1;
    if s.isConstructor {
      var target := |before.graph| + 1;
      var r := Resume(Join(s1, target), target);
      JoinResumeGrows(s1, target, target);
      Step({}, before, s1, {target}, r);
      s2 := r.(marks := r.marks + {ReturnFlow(s.id, r.flow)});
      GrowsExtends({target}, s1, r);
      MoveGrows(r, s2);
      Step({}, before, r, {}, s2);
    }
    BackGrows({}, before, s2);
    var s3 := s2.(flow := before.flow);
    GrowsExtends({}, before, s3);
    MoveGrows(s3, LeaveContainer(s, before, st));
    Step({}, before, s3, {}, LeaveContainer(s, before, st));
  }

  // ----- unreachable code stays unreachable -----

  lemma KeptDead(a: State, b: State)
    requires Dead(a) && Extends(a.graph, b.graph) && b.flow == a.flow
    ensures Dead(b)
  {
  }

  lemma ReportedDead(s: Stmt, st: State)
    requires Valid(st) && Dead(st)
    ensures var s0 := if IsReportable(s) && st.flow == UNREACHABLE_FLOW then st.(flow := REPORTED_UNREACHABLE_FLOW) else st;
            Valid(s0) && Dead(s0)
  {
  }

  lemma {:induction false} DeadStays(s: Stmt, st: State)
    requires Valid(st) && Dead(st)
    ensures Valid(BindDead(s, st)) && Dead(BindDead(s, st))
    decreases s, 0
  {
    hide Valid, Dead, Extends, Grows, BindContainer;
    var s0 := if IsReportable(s) && st.flow == UNREACHABLE_FLOW then st.(flow := REPORTED_UNREACHABLE_FLOW) else st;
    ReportedDead(s, st);
    match s
    case Function(_, _, _) =>
      ContainerGrows(s, s0);
      GrowsExtends({}, s0, BindContainer(s, s0));
      ContainerFlow(s, s0);
      KeptDead(s0, BindContainer(s, s0));
    case Block(_, ss) => DeadsStay(ss, s0);
    case If(_, _, a, b) =>
      DeadStays(a, s0);
      if b.Some? {
        DeadStays(b.value, BindDead(a, s0));
      }
    case While(_, _, body) => DeadStays(body, s0);
    case Do(_, body, _) => DeadStays(body, s0);
    case For(_, _, _, _, body) => DeadStays(body, s0);
    case ForOf(_, _, _, body) => DeadStays(body, s0);
    case Labeled(_, _, body) => DeadStays(body, s0);
    case Switch(_, _, clauses) => DeadClausesStay(clauses, s0);
    case Try(_, b, h, f) =>
      DeadsStay(b, s0);
      var s1 := BindDeads(b, s0);
      if h.SomeBlock? {
        DeadsStay(h.statements, s1);
      }
      if f.SomeBlock? {
        DeadsStay(f.statements, if h.SomeBlock? then BindDeads(h.statements, s1) else s1);
      }
    case _ =>
  }

  lemma {:induction false} DeadsStay(ss: seq<Stmt>, st: State)
    requires Valid(st) && Dead(st)
    ensures Valid(BindDeads(ss, st)) && Dead(BindDeads(ss, st))
    decreases ss, 0
  {
    hide Valid, Dead;
    if ss != [] {
      DeadStays(ss[0], st);
      DeadsStay(ss[1..], BindDead(ss[0], st));
    }
  }

  lemma {:induction false} DeadClausesStay(clauses: seq<Clause>, st: State)
    requires Valid(st) && Dead(st)
    ensures Valid(BindDeadClauses(clauses, st)) && Dead(BindDeadClauses(clauses, st))
    decreases clauses, 0
  {
    hide Valid, Dead;
    if clauses != [] {
      DeadsStay(clauses[0].body, st);
      DeadClausesStay(clauses[1..], BindDeads(clauses[0].body, st));
    }
  }

  lemma ContainerFlow(s: Stmt, st: State)
    requires s.Function?
    ensures BindContainer(s, st).flow == st.flow
  {
    hide BindBlock, FinishFlowLabel, AddAntecedent;
  }

  lemma DeadStmt(s: Stmt, ctx: Context, st: State)
    requires Valid(st) && Dead(st)
    ensures BindStmt(s, ctx, st) == BindDead(s, st)
    ensures Valid(BindStmt(s, ctx, st)) && Dead(BindStmt(s, ctx, st))
  {
    hide Valid, Dead, BindContainer;
    DeadStays(s, st);
  }
}
