/** Every part of a program has a single entry in the graph: whatever is made while a part is bound leads back
    to the flow that the part started from, and to nothing else outside it. */
module FlowRegions {
  import opened Wrappers
  import opened Syntax
  import opened FlowGraph
  import opened FlowBuilder
  import opened FlowMarks

  /** A node made since `o`, the flow in `o`, or one of the two unreachable nodes. */
  ghost predicate Inside(o: State, f: FlowId) {
    f >= |o.graph| || f == o.flow || f < 2
  }

  ghost predicate AllInside(o: State, list: seq<FlowId>) {
    forall x :: x in list ==> Inside(o, x)
  }

  /** A node that leads back inside only, and is no clause of the switch statements `other`. */
  ghost predicate NodeInside(o: State, other: set<nat>, n: FlowNode) {
    match n
    case Unreachable => true
    case Start => true
    case BranchLabel(list) => AllInside(o, list)
    case FinallyLabel(list) => AllInside(o, list)
    case LoopLabel(list) => AllInside(o, list)
    case Assignment(_, a) => Inside(o, a)
    case Condition(_, _, a) => Inside(o, a)
    case SwitchClause(id, _, _, a) => Inside(o, a) && id !in other
    case AssertionCall(_, a) => Inside(o, a)
    case ReduceLabel(l, list, a) => l >= |o.graph| && AllInside(o, list) && Inside(o, a)
  }

  /** The node leads back to nodes that exist. */
  ghost predicate Bounded(n: FlowNode, size: nat) {
    match n
    case Unreachable => true
    case Start => true
    case BranchLabel(list) => AllBelow(list, size)
    case FinallyLabel(list) => AllBelow(list, size)
    case LoopLabel(list) => AllBelow(list, size)
    case Assignment(_, a) => a < size
    case Condition(_, _, a) => a < size
    case SwitchClause(_, _, _, a) => a < size
    case AssertionCall(_, a) => a < size
    case ReduceLabel(l, list, a) => l < size && AllBelow(list, size) && a < size
  }

  ghost predicate AllBelow(list: seq<FlowId>, size: nat) {
    forall x :: x in list ==> x < size
  }

  /** What has been bound since `o` is closed: its nodes, its flow, the flows it has recorded, and what it has
      added to older labels. */
  ghost predicate Enclosed(o: State, other: set<nat>, st: State) {
    && 2 <= |o.graph| <= |st.graph| && Inside(o, st.flow) && st.flow < |st.graph|
    && (forall i :: |o.graph| <= i < |st.graph| ==> NodeInside(o, other, st.graph[i]) && Bounded(st.graph[i], |st.graph|))
    && (forall i :: |o.graph| <= i < |st.graph| && st.graph[i].ReduceLabel? ==> st.graph[i].finallyLabel < i)
    && (forall t: FlowId, x :: t < |o.graph| && x in Antecedents(st.graph, t) ==> x in Antecedents(o.graph, t) || Inside(o, x))
    && (forall id, f: FlowId :: FlowAt(id, f) in st.marks ==> FlowAt(id, f) in o.marks || (Inside(o, f) && f < |st.graph|))
  }

  lemma Enclosing(o: State, other: set<nat>)
    requires 2 <= |o.graph| && o.flow < |o.graph|
    ensures Enclosed(o, other, o)
  {
  }

  lemma BelowLater(list: seq<FlowId>, size: nat, size': nat)
    requires AllBelow(list, size) && size <= size'
    ensures AllBelow(list, size')
  {
  }

  lemma BoundedLater(n: FlowNode, size: nat, size': nat)
    requires Bounded(n, size) && size <= size'
    ensures Bounded(n, size')
  {
  }

  // ----- steps -----

  lemma EnclosedLength(o: State, other: set<nat>, st: State)
    requires Enclosed(o, other, st)
    ensures 2 <= |o.graph| <= |st.graph| && Inside(o, st.flow) && st.flow < |st.graph|
  {
  }

  lemma AppendEnclosed(o: State, other: set<nat>, a: State, b: State, nodes: seq<FlowNode>)
    requires Enclosed(o, other, a) && b.graph == a.graph + nodes && b.marks == a.marks
    requires Inside(o, b.flow) && b.flow < |b.graph|
    requires forall n :: n in nodes ==> NodeInside(o, other, n) && Bounded(n, |b.graph|)
    requires forall n :: n in nodes && n.ReduceLabel? ==> n.finallyLabel < |a.graph|
    ensures Enclosed(o, other, b) && |a.graph| <= |b.graph|
  {
    hide NodeInside, Bounded;
    forall i | |o.graph| <= i < |b.graph|
      ensures NodeInside(o, other, b.graph[i]) && Bounded(b.graph[i], |b.graph|)
      ensures b.graph[i].ReduceLabel? ==> b.graph[i].finallyLabel < i
    {
      if i >= |a.graph| {
        assert b.graph[i] == nodes[i - |a.graph|];
      } else {
        BoundedLater(a.graph[i], |a.graph|, |b.graph|);
      }
    }
    assert forall t: FlowId :: t < |o.graph| ==> Antecedents(b.graph, t) == Antecedents(a.graph, t);
  }

  lemma JoinEnclosed(o: State, other: set<nat>, st: State, join: FlowId, from: FlowId)
    requires Enclosed(o, other, st) && Inside(o, from) && from < |st.graph|
    ensures Enclosed(o, other, JoinFrom(st, join, from))
    ensures |st.graph| <= |JoinFrom(st, join, from).graph|
  {
    var r := JoinFrom(st, join, from);
    forall i | |o.graph| <= i < |r.graph|
      ensures NodeInside(o, other, r.graph[i]) && Bounded(r.graph[i], |r.graph|)
    {
      assert NodeInside(o, other, st.graph[i]) && Bounded(st.graph[i], |st.graph|);
    }
  }

  lemma ResumeEnclosed(o: State, other: set<nat>, st: State, join: FlowId)
    requires Enclosed(o, other, st) && join >= |o.graph|
    ensures Enclosed(o, other, Resume(st, join))
    ensures |st.graph| <= |Resume(st, join).graph|
  {
    var list := Antecedents(st.graph, join);
    if list != [] {
      assert NodeInside(o, other, st.graph[join]) && Bounded(st.graph[join], |st.graph|) && list[0] in list;
    }
  }

  lemma MovedEnclosed(o: State, other: set<nat>, a: State, b: State)
    requires Enclosed(o, other, a) && b.graph == a.graph && b.marks == a.marks && Inside(o, b.flow)
    requires b.flow < |b.graph|
    ensures Enclosed(o, other, b)
  {
  }

  /** The antecedents of a label that has been made since. */
  lemma ListInside(o: State, other: set<nat>, st: State, join: FlowId)
    requires Enclosed(o, other, st) && join >= |o.graph|
    ensures AllInside(o, Antecedents(st.graph, join)) && AllBelow(Antecedents(st.graph, join), |st.graph|)
  {
    if join < |st.graph| {
      assert NodeInside(o, other, st.graph[join]) && Bounded(st.graph[join], |st.graph|);
    }
  }

  lemma MutateEnclosed(o: State, other: set<nat>, st: State, exc: Option<FlowId>, x: string)
    requires Enclosed(o, other, st)
    ensures Enclosed(o, other, Mutate(st, exc, x))
    ensures |st.graph| <= |Mutate(st, exc, x).graph|
  {
    hide Enclosed, AddAntecedent;
    EnclosedLength(o, other, st);
    var node := Assignment(x, st.flow);
    var s1 := st.(graph := st.graph + [node], flow := |st.graph|, effects := true);
    AppendEnclosed(o, other, st, s1, [node]);
    if exc.Some? {
      JoinEnclosed(o, other, s1, exc.value, |st.graph|);
    }
  }

  lemma AddConditionEnclosed(o: State, other: set<nat>, st: State, join: FlowId, sense: bool, e: Option<Expr>)
    requires Enclosed(o, other, st)
    ensures Enclosed(o, other, AddCondition(st, join, sense, e))
    ensures |st.graph| <= |AddCondition(st, join, sense, e).graph|
  {
    hide Enclosed, AddAntecedent, IsNarrowing;
    EnclosedLength(o, other, st);
    var (g, f) := CreateCondition(st.graph, sense, e, st.flow);
    var s1 := st.(graph := g);
    AppendEnclosed(o, other, st, s1, g[|st.graph|..]);
    JoinEnclosed(o, other, s1, join, f);
  }

  lemma AddConditionsEnclosed(o: State, other: set<nat>, st: State, t: FlowId, f: FlowId, e: Option<Expr>)
    requires Enclosed(o, other, st)
    ensures Enclosed(o, other, AddConditions(st, t, f, e))
    ensures |st.graph| <= |AddConditions(st, t, f, e).graph|
  {
    hide Enclosed, AddCondition;
    AddConditionEnclosed(o, other, st, t, true, e);
    AddConditionEnclosed(o, other, AddCondition(st, t, true, e), f, false, e);
  }

  /** New labels are empty. */
  lemma LabelsEnclosed(o: State, other: set<nat>, a: State, b: State, nodes: seq<FlowNode>)
    requires Enclosed(o, other, a) && b.graph == a.graph + nodes && b.marks == a.marks
    requires Inside(o, b.flow) && b.flow < |b.graph|
    requires forall n :: n in nodes ==> n.Start? || (IsLabel(n) && n.antecedents == [])
    ensures Enclosed(o, other, b)
  {
    hide Enclosed;
    AppendEnclosed(o, other, a, b, nodes);
  }

  // ----- expressions -----

  lemma {:induction false} ExprEnclosed(o: State, other: set<nat>, e: Expr, mode: Mode, exc: Option<FlowId>, st: State)
    requires Enclosed(o, other, st)
    ensures Enclosed(o, other, BindExpr(e, mode, exc, st))
    ensures |st.graph| <= |BindExpr(e, mode, exc, st).graph|
    decreases e, 1
  {
    hide Enclosed, Dead, Mutate, BindLogical, BindConditional;
    if !Dead(st) {
      match e
      case Paren(x) => ExprEnclosed(o, other, x, mode, exc, st);
      case Not(x) => ExprEnclosed(o, other, x, Negated(mode), exc, st);
      case Logical(_, _, _) => LogicalEnclosed(o, other, e, mode, exc, st);
      case LogicalAssign(_, _, _, _) => LogicalEnclosed(o, other, e, mode, exc, st);
      case Assign(x, _, r) =>
        ExprEnclosed(o, other, r, AsValue, exc, st);
        MutateEnclosed(o, other, BindExpr(r, AsValue, exc, st), exc, x);
      case Conditional(_, _, _) => ConditionalEnclosed(o, other, e, exc, st);
      case Binary(_, l, r) =>
        ExprEnclosed(o, other, l, AsValue, exc, st);
        ExprEnclosed(o, other, r, AsValue, exc, BindExpr(l, AsValue, exc, st));
      case Call(_, _, a) => ExprEnclosed(o, other, a, AsValue, exc, st);
      case _ =>
    }
  }

  lemma {:induction false} ConditionEnclosed(o: State, other: set<nat>, e: Expr, t: FlowId, f: FlowId,
                                             exc: Option<FlowId>,
                                             st: State)
    requires Enclosed(o, other, st)
    ensures Enclosed(o, other, BindCondition(e, t, f, exc, st))
    ensures |st.graph| <= |BindCondition(e, t, f, exc, st).graph|
    decreases e, 2
  {
    hide Enclosed, BindExpr, AddConditions;
    ExprEnclosed(o, other, e, AsBranch(t, f), exc, st);
    AddConditionsEnclosed(o, other, BindExpr(e, AsBranch(t, f), exc, st), t, f, Some(e));
  }

  lemma WithoutEffectsEnclosed(o: State, other: set<nat>, before: State, after: State, post: FlowId)
    requires Enclosed(o, other, after) && Inside(o, before.flow) && before.flow < |after.graph| && post >= |o.graph|
    ensures Enclosed(o, other, WithoutEffects(before, after, post))
    ensures |after.graph| <= |WithoutEffects(before, after, post).graph|
  {
    hide Enclosed, Resume;
    ResumeEnclosed(o, other, after, post);
    var s := if after.effects then Resume(after, post) else after.(flow := before.flow);
    assert Enclosed(o, other, s) by {
      if !after.effects {
        MovedEnclosed(o, other, after, s);
      }
    }
    EnclosedLength(o, other, s);
    MovedEnclosed(o, other, s, WithoutEffects(before, after, post));
  }

  lemma {:induction false} ConditionalEnclosed(o: State, other: set<nat>, e: Expr, exc: Option<FlowId>, st: State)
    requires e.Conditional? && Enclosed(o, other, st)
    ensures Enclosed(o, other, BindConditional(e, exc, st))
    ensures |st.graph| <= |BindConditional(e, exc, st).graph|
    decreases e, 0
  {
    hide Enclosed, BindExpr, BindCondition, Resume, AddAntecedent, WithoutEffects;
    EnclosedLength(o, other, st);
    var whenTrue, whenFalse, post := |st.graph|, |st.graph| + 1, |st.graph| + 2;
    var s0 := NewLabels(st, BRANCHES).(effects := false);
    LabelsEnclosed(o, other, st, s0, BRANCHES);
    ConditionEnclosed(o, other, e.condition, whenTrue, whenFalse, exc, s0);
    var s1 := BindCondition(e.condition, whenTrue, whenFalse, exc, s0);
    ArmEnclosed(o, other, e.whenTrue, whenTrue, post, exc, s1);
    var s2 := Join(BindExpr(e.whenTrue, AsValue, exc, Resume(s1, whenTrue)), post);
    ArmEnclosed(o, other, e.whenFalse, whenFalse, post, exc, s2);
    var s3 := Join(BindExpr(e.whenFalse, AsValue, exc, Resume(s2, whenFalse)), post);
    WithoutEffectsEnclosed(o, other, st, s3, post);
  }

  lemma {:induction false} ArmEnclosed(o: State, other: set<nat>, a: Expr, arm: FlowId, post: FlowId,
                                       exc: Option<FlowId>,
                                       st: State)
    requires Enclosed(o, other, st) && arm >= |o.graph|
    ensures Enclosed(o, other, Join(BindExpr(a, AsValue, exc, Resume(st, arm)), post))
    ensures |st.graph| <= |Join(BindExpr(a, AsValue, exc, Resume(st, arm)), post).graph|
    decreases a, 2
  {
    hide Enclosed, BindExpr, Resume, AddAntecedent;
    ResumeEnclosed(o, other, st, arm);
    ExprEnclosed(o, other, a, AsValue, exc, Resume(st, arm));
    var s := BindExpr(a, AsValue, exc, Resume(st, arm));
    EnclosedLength(o, other, s);
    JoinEnclosed(o, other, s, post, s.flow);
  }

  lemma {:induction false} LogicalEnclosed(o: State, other: set<nat>, e: Expr, mode: Mode, exc: Option<FlowId>,
                                           st: State)
    requires e.Logical? || e.LogicalAssign?
    requires Enclosed(o, other, st)
    ensures Enclosed(o, other, BindLogical(e, mode, exc, st))
    ensures |st.graph| <= |BindLogical(e, mode, exc, st).graph|
    decreases e, 0, 3
  {
    hide Enclosed, BindLogicalLike, WithoutEffects;
    match mode
    case AsBranch(t, f) => LogicalLikeEnclosed(o, other, e, t, f, exc, st);
    case AsValue =>
      EnclosedLength(o, other, st);
      var post := |st.graph|;
      var s0 := NewNode(st, BranchLabel([])).(effects := false);
      LabelsEnclosed(o, other, st, s0, [BranchLabel([])]);
      LogicalLikeEnclosed(o, other, e, post, post, exc, s0);
      WithoutEffectsEnclosed(o, other, st, BindLogicalLike(e, post, post, exc, s0), post);
  }

  lemma {:induction false} LogicalLikeEnclosed(o: State, other: set<nat>, e: Expr, t: FlowId, f: FlowId,
                                               exc: Option<FlowId>,
                                               st: State)
    requires e.Logical? || e.LogicalAssign?
    requires Enclosed(o, other, st)
    ensures Enclosed(o, other, BindLogicalLike(e, t, f, exc, st))
    ensures |st.graph| <= |BindLogicalLike(e, t, f, exc, st).graph|
    decreases e, 0, 2
  {
    hide Enclosed, BindCondition, BindExpr, Resume, AddConditions, Mutate;
    EnclosedLength(o, other, st);
    var pre := |st.graph|;
    var s0 := NewNode(st, BranchLabel([]));
    LabelsEnclosed(o, other, st, s0, [BranchLabel([])]);
    var lt, lf := LeftTrue(e, t, pre), LeftFalse(e, f, pre);
    if e.Logical? {
      ConditionEnclosed(o, other, e.left, lt, lf, exc, s0);
      var s1 := BindCondition(e.left, lt, lf, exc, s0);
      ResumeEnclosed(o, other, s1, pre);
      ConditionEnclosed(o, other, e.right, t, f, exc, Resume(s1, pre));
    } else {
      AddConditionsEnclosed(o, other, s0, lt, lf, Some(Target(e)));
      var s1 := Resume(AddConditions(s0, lt, lf, Some(Target(e))), pre);
      ResumeEnclosed(o, other, AddConditions(s0, lt, lf, Some(Target(e))), pre);
      assert BindLogicalLike(e, t, f, exc, st) == BindLogicalAssign(e, t, f, pre, exc, s0);
      assert BindLogicalAssign(e, t, f, pre, exc, s0) == BindAssignedRight(e, t, f, exc, s1);
      ExprEnclosed(o, other, e.right, AsValue, exc, s1);
      var s2 := BindExpr(e.right, AsValue, exc, s1);
      MutateEnclosed(o, other, s2, exc, e.target);
      AddConditionsEnclosed(o, other, Mutate(s2, exc, e.target), t, f, Some(e));
    }
  }

  lemma OptionalEnclosed(o: State, other: set<nat>, e: Option<Expr>, exc: Option<FlowId>, st: State)
    requires Enclosed(o, other, st)
    ensures Enclosed(o, other, BindOptional(e, exc, st))
    ensures |st.graph| <= |BindOptional(e, exc, st).graph|
  {
    hide Enclosed, BindExpr;
    if e.Some? {
      ExprEnclosed(o, other, e.value, AsValue, exc, st);
    }
  }

  lemma OptionalConditionEnclosed(o: State, other: set<nat>, e: Option<Expr>, t: FlowId, f: FlowId, exc: Option<FlowId>,
                                  st: State)
    requires Enclosed(o, other, st)
    ensures Enclosed(o, other, BindOptionalCondition(e, t, f, exc, st))
    ensures |st.graph| <= |BindOptionalCondition(e, t, f, exc, st).graph|
  {
    hide Enclosed, BindCondition, AddConditions;
    match e
    case None => AddConditionsEnclosed(o, other, st, t, f, None);
    case Some(x) => ConditionEnclosed(o, other, x, t, f, exc, st);
  }

  // ----- statements -----

  lemma {:induction false} StmtEnclosed(o: State, other: set<nat>, s: Stmt, ctx: Context, st: State)
    requires Enclosed(o, other, st) && Ids(s) !! other
    ensures Enclosed(o, other, BindStmt(s, ctx, st))
    ensures |st.graph| <= |BindStmt(s, ctx, st).graph|
    decreases s, 4
  {
    hide Enclosed, BindLive, BindContainer, BindDead, Dead, Ids;
    if s.Function? {
      ContainerEnclosed(o, other, s, st);
    } else if Dead(st) {
      DeadEnclosed(o, other, s, st);
    } else {
      RecordEnclosed(o, other, s, st);
      LiveEnclosed(o, other, s, ctx, Record(s, st));
    }
  }

  lemma RecordEnclosed(o: State, other: set<nat>, s: Stmt, st: State)
    requires Enclosed(o, other, st)
    ensures Enclosed(o, other, Record(s, st))
    ensures |st.graph| <= |Record(s, st).graph|
  {
  }

  /** A statement that is part of another, and where it leads. */
  lemma {:induction false} PartEnclosed(o: State, other: set<nat>, s: Stmt, ctx: Context, st: State, join: FlowId)
    requires Enclosed(o, other, st) && Ids(s) !! other
    ensures Enclosed(o, other, BindStmt(s, ctx, st)) && Enclosed(o, other, Join(BindStmt(s, ctx, st), join))
    ensures |st.graph| <= |BindStmt(s, ctx, st).graph| <= |Join(BindStmt(s, ctx, st), join).graph|
    decreases s, 5
  {
    hide Enclosed, BindStmt, AddAntecedent, Ids;
    StmtEnclosed(o, other, s, ctx, st);
    var r := BindStmt(s, ctx, st);
    EnclosedLength(o, other, r);
    JoinEnclosed(o, other, r, join, r.flow);
  }

  lemma {:induction false} LiveEnclosed(o: State, other: set<nat>, s: Stmt, ctx: Context, st: State)
    requires Enclosed(o, other, st) && Ids(s) !! other
    ensures Enclosed(o, other, BindLive(s, ctx, st))
    ensures |st.graph| <= |BindLive(s, ctx, st).graph|
    decreases s, 3
  {
    hide Enclosed, BindExpr, BindBlock, BindOptional, Mutate, BindSwitch, BindTry, Resume, AddAntecedent;
    var exc := ctx.exceptionTarget;
    match s
    case Block(_, ss) => BlockEnclosed(o, other, ss, Inner(ctx), st);
    case Var(_, x, init) =>
      OptionalEnclosed(o, other, init, exc, st);
      MutateEnclosed(o, other, BindOptional(init, exc, st), exc, x);
    case ExprStmt(_, e) =>
      ExprEnclosed(o, other, e, AsValue, exc, st);
      CallEnclosed(o, other, BindExpr(e, AsValue, exc, st), e);
    case If(_, _, _, _) => IfEnclosed(o, other, s, ctx, st);
    case While(_, _, _) => WhileEnclosed(o, other, s, ctx, st);
    case Do(_, _, _) => DoEnclosed(o, other, s, ctx, st);
    case For(_, _, _, _, _) => ForEnclosed(o, other, s, ctx, st);
    case ForOf(_, _, _, _) => ForOfEnclosed(o, other, s, ctx, st);
    case Break(_, d) => JumpEnclosed(o, other, st, BreakTarget(ctx, d));
    case Continue(_, d) => JumpEnclosed(o, other, st, ContinueTarget(ctx, d));
    case Return(_, e) =>
      OptionalEnclosed(o, other, e, exc, st);
      var s1 := BindOptional(e, exc, st);
      if ctx.returnTarget.Some? {
        EnclosedLength(o, other, s1);
        JoinEnclosed(o, other, s1, ctx.returnTarget.value, s1.flow);
        EndEnclosed(o, other, Join(s1, ctx.returnTarget.value));
      } else {
        EndEnclosed(o, other, s1);
      }
    case Throw(_, e) =>
      ExprEnclosed(o, other, e, AsValue, exc, st);
      EndEnclosed(o, other, BindExpr(e, AsValue, exc, st));
    case Switch(_, _, _) => SwitchEnclosed(o, other, s, ctx, st);
    case Labeled(_, name, body) =>
      EnclosedLength(o, other, st);
      var s0 := NewNode(st, BranchLabel([]));
      LabelsEnclosed(o, other, st, s0, [BranchLabel([])]);
      PartEnclosed(o, other, body, LabelContext(ctx, name, |st.graph|), s0, |st.graph|);
      ResumeEnclosed(o, other, Join(BindStmt(body, LabelContext(ctx, name, |st.graph|), s0), |st.graph|), |st.graph|);
    case Try(_, _, _, _) => TryEnclosed(o, other, s, Inner(ctx), st);
    case _ =>
  }

  lemma CallEnclosed(o: State, other: set<nat>, st: State, e: Expr)
    requires Enclosed(o, other, st)
    ensures Enclosed(o, other, CallEffect(st, e))
    ensures |st.graph| <= |CallEffect(st, e).graph|
  {
    hide Enclosed;
    EnclosedLength(o, other, st);
    AppendEnclosed(o, other, st, CallEffect(st, e), [AssertionCall(e, st.flow)]);
  }

  lemma EndEnclosed(o: State, other: set<nat>, st: State)
    requires Enclosed(o, other, st)
    ensures Enclosed(o, other, Terminate(st)) && Enclosed(o, other, Terminate(st).(explicitReturn := true))
    ensures Enclosed(o, other, st.(flow := UNREACHABLE_FLOW))
    ensures |st.graph| <= |st.(flow := UNREACHABLE_FLOW).graph|
  {
  }

  lemma JumpEnclosed(o: State, other: set<nat>, st: State, target: Option<FlowId>)
    requires Enclosed(o, other, st)
    ensures Enclosed(o, other, Jump(st, target))
    ensures |st.graph| <= |Jump(st, target).graph|
  {
    hide Enclosed, AddAntecedent;
    if target.Some? {
      EnclosedLength(o, other, st);
      JoinEnclosed(o, other, st, target.value, st.flow);
      EndEnclosed(o, other, Join(st, target.value));
    }
  }

  lemma {:induction false} IfEnclosed(o: State, other: set<nat>, s: Stmt, ctx: Context, st: State)
    requires s.If? && Enclosed(o, other, st) && Ids(s) !! other
    ensures Enclosed(o, other, BindLive(s, ctx, st))
    ensures |st.graph| <= |BindLive(s, ctx, st).graph|
    decreases s, 2
  {
    hide Enclosed, BindStmt, BindCondition, AddAntecedent, Resume;
    EnclosedLength(o, other, st);
    var exc, thenLabel, elseLabel, post := ctx.exceptionTarget, |st.graph|, |st.graph| + 1, |st.graph| + 2;
    var s0 := NewLabels(st, BRANCHES);
    LabelsEnclosed(o, other, st, s0, BRANCHES);
    ConditionEnclosed(o, other, s.cond, thenLabel, elseLabel, exc, s0);
    var s1 := BindCondition(s.cond, thenLabel, elseLabel, exc, s0);
    ResumeEnclosed(o, other, s1, thenLabel);
    PartEnclosed(o, other, s.thenStmt, Inner(ctx), Resume(s1, thenLabel), post);
    var s2 := Join(BindStmt(s.thenStmt, Inner(ctx), Resume(s1, thenLabel)), post);
    ResumeEnclosed(o, other, s2, elseLabel);
    var s3 := Resume(s2, elseLabel);
    if s.elseStmt.Some? {
      PartEnclosed(o, other, s.elseStmt.value, Inner(ctx), s3, post);
    } else {
      EnclosedLength(o, other, s3);
      JoinEnclosed(o, other, s3, post, s3.flow);
    }
    ResumeEnclosed(o, other, Join(if s.elseStmt.Some? then BindStmt(s.elseStmt.value, Inner(ctx), s3) else s3, post), post);
  }

  lemma LoopEndEnclosed(o: State, other: set<nat>, st: State, pre: FlowId, top: FlowId, post: FlowId)
    requires Enclosed(o, other, st) && Inside(o, top) && top < |st.graph| && post >= |o.graph|
    ensures Enclosed(o, other, Resume(JoinFrom(Join(st, pre), pre, top), post))
    ensures |st.graph| <= |Resume(JoinFrom(Join(st, pre), pre, top), post).graph|
    ensures Enclosed(o, other, Resume(JoinFrom(st, pre, top), post))
    ensures |st.graph| <= |Resume(JoinFrom(st, pre, top), post).graph|
  {
    hide Enclosed, AddAntecedent, Resume;
    EnclosedLength(o, other, st);
    JoinEnclosed(o, other, st, pre, st.flow);
    JoinEnclosed(o, other, Join(st, pre), pre, top);
    ResumeEnclosed(o, other, JoinFrom(Join(st, pre), pre, top), post);
    JoinEnclosed(o, other, st, pre, top);
    ResumeEnclosed(o, other, JoinFrom(st, pre, top), post);
  }

  lemma {:induction false} WhileEnclosed(o: State, other: set<nat>, s: Stmt, ctx: Context, st: State)
    requires s.While? && Enclosed(o, other, st) && Ids(s) !! other
    ensures Enclosed(o, other, BindLive(s, ctx, st))
    ensures |st.graph| <= |BindLive(s, ctx, st).graph|
    decreases s, 2
  {
    hide Enclosed, BindStmt, BindCondition, AddAntecedent, Resume, LoopContext;
    EnclosedLength(o, other, st);
    var exc, pre, preBody, post := ctx.exceptionTarget, |st.graph|, |st.graph| + 1, |st.graph| + 2;
    var s0 := NewLabels(st, LOOP).(flow := pre);
    LabelsEnclosed(o, other, st, s0, LOOP);
    ConditionEnclosed(o, other, s.cond, preBody, post, exc, s0);
    var s1 := BindCondition(s.cond, preBody, post, exc, s0);
    ResumeEnclosed(o, other, s1, preBody);
    StmtEnclosed(o, other, s.body, LoopContext(ctx, post, pre), Resume(s1, preBody));
    LoopEndEnclosed(o, other, BindStmt(s.body, LoopContext(ctx, post, pre), Resume(s1, preBody)), pre, st.flow, post);
  }

  lemma {:induction false} DoEnclosed(o: State, other: set<nat>, s: Stmt, ctx: Context, st: State)
    requires s.Do? && Enclosed(o, other, st) && Ids(s) !! other
    ensures Enclosed(o, other, BindLive(s, ctx, st))
    ensures |st.graph| <= |BindLive(s, ctx, st).graph|
    decreases s, 2
  {
    hide Enclosed, BindStmt, BindCondition, AddAntecedent, Resume, LoopContext;
    EnclosedLength(o, other, st);
    var exc, pre, preCondition, post := ctx.exceptionTarget, |st.graph|, |st.graph| + 1, |st.graph| + 2;
    var s0, inner := NewLabels(st, LOOP).(flow := pre), LoopContext(ctx, post, preCondition);
    LabelsEnclosed(o, other, st, s0, LOOP);
    PartEnclosed(o, other, s.body, inner, s0, preCondition);
    ResumeEnclosed(o, other, Join(BindStmt(s.body, inner, s0), preCondition), preCondition);
    var s1 := Resume(Join(BindStmt(s.body, inner, s0), preCondition), preCondition);
    ConditionEnclosed(o, other, s.cond, pre, post, exc, s1);
    LoopEndEnclosed(o, other, BindCondition(s.cond, pre, post, exc, s1), pre, st.flow, post);
  }

  lemma {:induction false} ForEnclosed(o: State, other: set<nat>, s: Stmt, ctx: Context, st: State)
    requires s.For? && Enclosed(o, other, st) && Ids(s) !! other
    ensures Enclosed(o, other, BindLive(s, ctx, st))
    ensures |st.graph| <= |BindLive(s, ctx, st).graph|
    decreases s, 2
  {
    hide Enclosed, BindStmt, BindOptional, BindOptionalCondition, AddAntecedent, Resume, LoopContext;
    EnclosedLength(o, other, st);
    var exc, pre, preBody, post := ctx.exceptionTarget, |st.graph|, |st.graph| + 1, |st.graph| + 2;
    var s0 := NewLabels(st, LOOP);
    LabelsEnclosed(o, other, st, s0, LOOP);
    OptionalEnclosed(o, other, s.init, exc, s0);
    var s1 := BindOptional(s.init, exc, s0);
    EnclosedLength(o, other, s1);
    MovedEnclosed(o, other, s1, s1.(flow := pre));
    OptionalConditionEnclosed(o, other, s.test, preBody, post, exc, s1.(flow := pre));
    var s2 := BindOptionalCondition(s.test, preBody, post, exc, s1.(flow := pre));
    ResumeEnclosed(o, other, s2, preBody);
    StmtEnclosed(o, other, s.body, LoopContext(ctx, post, pre), Resume(s2, preBody));
    var s3 := BindStmt(s.body, LoopContext(ctx, post, pre), Resume(s2, preBody));
    OptionalEnclosed(o, other, s.incr, exc, s3);
    LoopEndEnclosed(o, other, BindOptional(s.incr, exc, s3), pre, s1.flow, post);
  }

  lemma {:induction false} ForOfEnclosed(o: State, other: set<nat>, s: Stmt, ctx: Context, st: State)
    requires s.ForOf? && Enclosed(o, other, st) && Ids(s) !! other
    ensures Enclosed(o, other, BindLive(s, ctx, st))
    ensures |st.graph| <= |BindLive(s, ctx, st).graph|
    decreases s, 2
  {
    hide Enclosed, BindStmt, BindExpr, Mutate, AddAntecedent, Resume, LoopContext;
    EnclosedLength(o, other, st);
    var exc, pre, post := ctx.exceptionTarget, |st.graph|, |st.graph| + 1;
    var s0 := NewLabels(st, [LoopLabel([]), BranchLabel([])]);
    LabelsEnclosed(o, other, st, s0, [LoopLabel([]), BranchLabel([])]);
    ExprEnclosed(o, other, s.expr, AsValue, exc, s0);
    var s1 := BindExpr(s.expr, AsValue, exc, s0);
    EnclosedLength(o, other, s1);
    MovedEnclosed(o, other, s1, s1.(flow := pre));
    JoinEnclosed(o, other, s1.(flow := pre), post, pre);
    MutateEnclosed(o, other, Join(s1.(flow := pre), post), exc, s.target);
    var s2 := Mutate(Join(s1.(flow := pre), post), exc, s.target);
    StmtEnclosed(o, other, s.body, LoopContext(ctx, post, pre), s2);
    LoopEndEnclosed(o, other, BindStmt(s.body, LoopContext(ctx, post, pre), s2), pre, s1.flow, post);
  }

  // ----- blocks -----

  lemma {:induction false} BlockEnclosed(o: State, other: set<nat>, ss: seq<Stmt>, ctx: Context, st: State)
    requires Enclosed(o, other, st) && IdsSeq(ss) !! other
    ensures Enclosed(o, other, BindBlock(ss, ctx, st))
    ensures |st.graph| <= |BindBlock(ss, ctx, st).graph|
    decreases ss, 2
  {
    hide Enclosed, BindFunctions, BindOthers, BindDeads;
    if Dead(st) {
      DeadsEnclosed(o, other, ss, st);
    } else {
      FunctionsEnclosed(o, other, ss, st);
      OthersEnclosed(o, other, ss, ctx, BindFunctions(ss, st));
    }
  }

  lemma {:induction false} FunctionsEnclosed(o: State, other: set<nat>, ss: seq<Stmt>, st: State)
    requires Enclosed(o, other, st) && IdsSeq(ss) !! other
    ensures Enclosed(o, other, BindFunctions(ss, st))
    ensures |st.graph| <= |BindFunctions(ss, st).graph|
    decreases ss, 1
  {
    hide Enclosed, BindContainer, Ids;
    if ss != [] {
      if ss[0].Function? {
        ContainerEnclosed(o, other, ss[0], st);
      }
      FunctionsEnclosed(o, other, ss[1..], if ss[0].Function? then BindContainer(ss[0], st) else st);
    }
  }

  lemma {:induction false} OthersEnclosed(o: State, other: set<nat>, ss: seq<Stmt>, ctx: Context, st: State)
    requires Enclosed(o, other, st) && IdsSeq(ss) !! other
    ensures Enclosed(o, other, BindOthers(ss, ctx, st))
    ensures |st.graph| <= |BindOthers(ss, ctx, st).graph|
    decreases ss, 1
  {
    hide Enclosed, BindStmt, Ids;
    if ss != [] {
      if !ss[0].Function? {
        StmtEnclosed(o, other, ss[0], ctx, st);
      }
      OthersEnclosed(o, other, ss[1..], ctx, if ss[0].Function? then st else BindStmt(ss[0], ctx, st));
    }
  }

  lemma {:induction false} EachEnclosed(o: State, other: set<nat>, ss: seq<Stmt>, ctx: Context, st: State)
    requires Enclosed(o, other, st) && IdsSeq(ss) !! other
    ensures Enclosed(o, other, BindEach(ss, ctx, st))
    ensures |st.graph| <= |BindEach(ss, ctx, st).graph|
    decreases ss, 1
  {
    hide Enclosed, BindStmt, Ids;
    if ss != [] {
      StmtEnclosed(o, other, ss[0], ctx, st);
      EachEnclosed(o, other, ss[1..], ctx, BindStmt(ss[0], ctx, st));
    }
  }

  // ----- try -----

  /** A guarded part, from where its exception label is made. */
  lemma {:induction false} GuardedPartEnclosed(o: State, other: set<nat>, s: Stmt, ss: seq<Stmt>, ctx: Context,
                                               st: State,
                                               exit: FlowId, returned: FlowId, exceptions: FlowId)
    requires s.Try? && Enclosed(o, other, st) && IdsSeq(ss) !! other
    ensures Enclosed(o, other, Join(BindBlock(ss, TryContext(s, ctx, returned, exceptions), Join(st, exceptions)), exit))
    ensures |st.graph| <= |Join(BindBlock(ss, TryContext(s, ctx, returned, exceptions), Join(st, exceptions)), exit).graph|
    decreases ss, 3
  {
    hide Enclosed, BindBlock, AddAntecedent, TryContext;
    EnclosedLength(o, other, st);
    JoinEnclosed(o, other, st, exceptions, st.flow);
    var inner := TryContext(s, ctx, returned, exceptions);
    BlockEnclosed(o, other, ss, inner, Join(st, exceptions));
    var r := BindBlock(ss, inner, Join(st, exceptions));
    EnclosedLength(o, other, r);
    JoinEnclosed(o, other, r, exit, r.flow);
  }

  lemma {:induction false} GuardedEnclosed(o: State, other: set<nat>, s: Stmt, ctx: Context, st: State)
    requires s.Try? && Enclosed(o, other, st) && Ids(s) !! other
    ensures Enclosed(o, other, BindGuarded(s, ctx, st).state) && BindGuarded(s, ctx, st).exceptions >= |o.graph|
    ensures |st.graph| <= |BindGuarded(s, ctx, st).state.graph|
    decreases s, 1
  {
    hide Enclosed, BindBlock, AddAntecedent, TryContext, Resume;
    EnclosedLength(o, other, st);
    var exit, returned, exceptions := |st.graph|, |st.graph| + 1, |st.graph| + 2;
    var g0 := NewLabels(st, BRANCHES);
    LabelsEnclosed(o, other, st, g0, BRANCHES);
    GuardedPartEnclosed(o, other, s, s.block, ctx, g0, exit, returned, exceptions);
    if s.handler.SomeBlock? {
      var s1 := BindTryBlock(s, ctx, st);
      ResumeEnclosed(o, other, s1, exceptions);
      var c0 := Resume(s1, exceptions);
      EnclosedLength(o, other, c0);
      var c1 := NewNode(c0, BranchLabel([]));
      LabelsEnclosed(o, other, c0, c1, [BranchLabel([])]);
      GuardedPartEnclosed(o, other, s, s.handler.statements, ctx, c1, exit, returned, |c0.graph|);
    }
  }

  lemma {:induction false} TryEnclosed(o: State, other: set<nat>, s: Stmt, ctx: Context, st: State)
    requires s.Try? && Enclosed(o, other, st) && Ids(s) !! other
    ensures Enclosed(o, other, BindTry(s, ctx, st))
    ensures |st.graph| <= |BindTry(s, ctx, st).graph|
    decreases s, 2
  {
    hide Enclosed, BindBlock, BindGuarded, Resume, LeaveFinally, Antecedents;
    EnclosedLength(o, other, st);
    GuardedEnclosed(o, other, s, ctx, st);
    var g := BindGuarded(s, ctx, st);
    if s.finalizer.NoBlock? {
      ResumeEnclosed(o, other, g.state, |st.graph|);
    } else {
      EnclosedLength(o, other, g.state);
      ListInside(o, other, g.state, |st.graph|);
      ListInside(o, other, g.state, g.exceptions);
      ListInside(o, other, g.state, |st.graph| + 1);
      var normal, exceptional, returning :=
        Antecedents(g.state.graph, |st.graph|), Antecedents(g.state.graph, g.exceptions), Antecedents(g.state.graph, |st.graph| + 1);
      var sealed := SealParts(g.state, |st.graph|, g.exceptions, |st.graph| + 1);
      MovedEnclosed(o, other, g.state, sealed);
      var node := FinallyLabel(normal + (exceptional + returning));
      var s2 := NewNode(sealed, node).(flow := |g.state.graph|);
      AppendEnclosed(o, other, sealed, s2, [node]);
      BlockEnclosed(o, other, s.finalizer.statements, ctx, s2);
      LeaveEnclosed(o, other, ctx, BindBlock(s.finalizer.statements, ctx, s2), |g.state.graph|, normal, exceptional, returning);
    }
  }

  lemma AddReducedEnclosed(o: State, other: set<nat>, st: State, target: Option<FlowId>, finallyLabel: FlowId,
                           list: seq<FlowId>)
    requires Enclosed(o, other, st) && |o.graph| <= finallyLabel < |st.graph|
    requires AllInside(o, list) && AllBelow(list, |st.graph|)
    ensures Enclosed(o, other, AddReduced(st, target, finallyLabel, list))
    ensures |st.graph| <= |AddReduced(st, target, finallyLabel, list).graph|
  {
    hide Enclosed, AddAntecedent;
    EnclosedLength(o, other, st);
    var node := ReduceLabel(finallyLabel, list, st.flow);
    AppendEnclosed(o, other, st, NewNode(st, node), [node]);
    if target.Some? {
      JoinEnclosed(o, other, NewNode(st, node), target.value, |st.graph|);
    }
  }

  lemma LeaveEnclosed(o: State, other: set<nat>, ctx: Context, st: State, finallyLabel: FlowId, normal: seq<FlowId>,
                      exceptional: seq<FlowId>, returning: seq<FlowId>)
    requires Enclosed(o, other, st) && |o.graph| <= finallyLabel < |st.graph|
    requires AllInside(o, normal) && AllInside(o, exceptional) && AllInside(o, returning)
    requires AllBelow(normal, |st.graph|) && AllBelow(exceptional, |st.graph|) && AllBelow(returning, |st.graph|)
    ensures Enclosed(o, other, LeaveFinally(ctx, st, finallyLabel, normal, exceptional, returning))
    ensures |st.graph| <= |LeaveFinally(ctx, st, finallyLabel, normal, exceptional, returning).graph|
  {
    hide Enclosed, AddReduced, AllInside, AllBelow, Dead;
    EndEnclosed(o, other, st);
    if !Dead(st) {
      var s1 := AddReduced(st, ctx.returnTarget, finallyLabel, returning);
      AddReducedEnclosed(o, other, st, ctx.returnTarget, finallyLabel, returning);
      BelowLater(exceptional, |st.graph|, |s1.graph|);
      var s2 := AddReduced(s1, ctx.exceptionTarget, finallyLabel, exceptional);
      AddReducedEnclosed(o, other, s1, ctx.exceptionTarget, finallyLabel, exceptional);
      EnclosedLength(o, other, s2);
      EndEnclosed(o, other, s2);
      BelowLater(normal, |st.graph|, |s2.graph| + 1);
      var node := ReduceLabel(finallyLabel, normal, s2.flow);
      AppendEnclosed(o, other, s2, NewNode(s2, node).(flow := |s2.graph|), [node]);
    }
  }

  // ----- switch -----

  lemma {:induction false} SwitchEnclosed(o: State, other: set<nat>, s: Stmt, ctx: Context, st: State)
    requires s.Switch? && Enclosed(o, other, st) && Ids(s) !! other
    ensures Enclosed(o, other, BindSwitch(s, ctx, st))
    ensures |st.graph| <= |BindSwitch(s, ctx, st).graph|
    decreases s, 2
  {
    hide Enclosed, BindExpr, BindClauses, BindDeadClauses, AddAntecedent, Resume, Dead, HasDefault;
    EnclosedLength(o, other, st);
    var post := |st.graph|;
    var s0 := NewNode(st, BranchLabel([]));
    LabelsEnclosed(o, other, st, s0, [BranchLabel([])]);
    ExprEnclosed(o, other, s.expr, AsValue, ctx.exceptionTarget, s0);
    var s1 := BindExpr(s.expr, AsValue, ctx.exceptionTarget, s0);
    EnclosedLength(o, other, s1);
    var inner := Inner(ctx).(breakTarget := Some(post));
    if Dead(s1) {
      DeadClausesEnclosed(o, other, s.clauses, s1);
    } else {
      ClausesEnclosed(o, other, s, s.clauses, 0, s1.flow, UNREACHABLE_FLOW, inner, s1);
    }
    var s2 := if Dead(s1) then BindDeadClauses(s.clauses, s1)
              else BindClauses(s, s.clauses, 0, s1.flow, UNREACHABLE_FLOW, inner, s1);
    EnclosedLength(o, other, s2);
    JoinEnclosed(o, other, s2, post, s2.flow);
    var s3 := Join(s2, post);
    EnclosedLength(o, other, s3);
    var node := SwitchClause(s.id, 0, 0, s1.flow);
    AppendEnclosed(o, other, s3, NewNode(s3, node), [node]);
    JoinEnclosed(o, other, NewNode(s3, node), post, |s3.graph|);
    ResumeEnclosed(o, other, s3, post);
    ResumeEnclosed(o, other, JoinFrom(NewNode(s3, node), post, |s3.graph|), post);
  }

  lemma {:induction false} ClausesEnclosed(o: State, other: set<nat>, s: Stmt, rest: seq<Clause>, start: nat,
                                           pre: FlowId,
                                           fall: FlowId, ctx: Context, st: State)
    requires s.Switch? && |rest| <= |s.clauses| && s.id !in other && IdsClauses(rest) !! other
    requires Enclosed(o, other, st) && Inside(o, pre) && Inside(o, fall)
    requires pre < |st.graph| && fall < |st.graph|
    ensures Enclosed(o, other, BindClauses(s, rest, start, pre, fall, ctx, st))
    ensures |st.graph| <= |BindClauses(s, rest, start, pre, fall, ctx, st).graph|
    decreases rest, 1
  {
    hide Enclosed, BindClause, EnterGroup, IdsSeq;
    if rest != [] {
      var empty := rest[0].body == [] && |rest| > 1;
      var end := |s.clauses| - |rest| + 1;
      var s1 := if !empty then EnterGroup(s, start, end, pre, fall, st)
                else if fall == UNREACHABLE_FLOW then st.(flow := pre) else st;
      if empty {
        EnclosedLength(o, other, st);
        MovedEnclosed(o, other, st, s1);
      } else {
        EnterGroupEnclosed(o, other, s, start, end, pre, fall, st);
      }
      ClauseEnclosed(o, other, rest[0], pre, ctx, s1);
      var s2 := BindClause(rest[0], pre, ctx, s1);
      EnclosedLength(o, other, s2);
      ClausesEnclosed(o, other, s, rest[1..], if empty then start else end, pre, if empty then fall else s2.flow, ctx, s2);
    }
  }

  lemma EnterGroupEnclosed(o: State, other: set<nat>, s: Stmt, start: nat, end: nat, pre: FlowId, fall: FlowId,
                           st: State)
    requires s.Switch? && s.id !in other && Enclosed(o, other, st) && Inside(o, pre) && Inside(o, fall)
    requires pre < |st.graph| && fall < |st.graph|
    ensures Enclosed(o, other, EnterGroup(s, start, end, pre, fall, st))
    ensures |st.graph| <= |EnterGroup(s, start, end, pre, fall, st).graph|
  {
    hide Enclosed, AddAntecedent, Resume, IsNarrowingSwitch;
    EnclosedLength(o, other, st);
    var preCase := |st.graph|;
    var s0 := NewNode(st, BranchLabel([]));
    LabelsEnclosed(o, other, st, s0, [BranchLabel([])]);
    var node := SwitchClause(s.id, start, end, pre);
    AppendEnclosed(o, other, s0, NewNode(s0, node), [node]);
    JoinEnclosed(o, other, NewNode(s0, node), preCase, |s0.graph|);
    JoinEnclosed(o, other, s0, preCase, pre);
    var s1 := if IsNarrowingSwitch(s.expr) then JoinFrom(NewNode(s0, node), preCase, |s0.graph|) else JoinFrom(s0, preCase, pre);
    JoinEnclosed(o, other, s1, preCase, fall);
    ResumeEnclosed(o, other, JoinFrom(s1, preCase, fall), preCase);
  }

  lemma {:induction false} ClauseEnclosed(o: State, other: set<nat>, c: Clause, pre: FlowId, ctx: Context, st: State)
    requires Enclosed(o, other, st) && Inside(o, pre) && pre < |st.graph| && IdsSeq(c.body) !! other
    ensures Enclosed(o, other, BindClause(c, pre, ctx, st))
    ensures |st.graph| <= |BindClause(c, pre, ctx, st).graph|
    decreases c, 1
  {
    hide Enclosed, BindExpr, BindEach, BindDeads, Dead;
    if Dead(st) {
      DeadsEnclosed(o, other, c.body, st);
    } else {
      var s1 := st;
      if c.test.Some? {
        EnclosedLength(o, other, st);
        MovedEnclosed(o, other, st, st.(flow := pre));
        ExprEnclosed(o, other, c.test.value, AsValue, ctx.exceptionTarget, st.(flow := pre));
        var t1 := BindExpr(c.test.value, AsValue, ctx.exceptionTarget, st.(flow := pre));
        s1 := t1.(flow := st.flow);
        MovedEnclosed(o, other, t1, s1);
      }
      EachEnclosed(o, other, c.body, ctx, s1);
    }
  }

  // ----- unreachable code -----

  lemma {:induction false} DeadEnclosed(o: State, other: set<nat>, s: Stmt, st: State)
    requires Enclosed(o, other, st) && Ids(s) !! other
    ensures Enclosed(o, other, BindDead(s, st))
    ensures |st.graph| <= |BindDead(s, st).graph|
    decreases s, 1
  {
    hide Enclosed, BindContainer, BindDeads, BindDeadClauses;
    var s0 := if IsReportable(s) && st.flow == UNREACHABLE_FLOW then st.(flow := REPORTED_UNREACHABLE_FLOW) else st;
    EnclosedLength(o, other, st);
    MovedEnclosed(o, other, st, s0);
    match s
    case Function(_, _, _) => ContainerEnclosed(o, other, s, s0);
    case Block(_, ss) => DeadsEnclosed(o, other, ss, s0);
    case If(_, _, a, b) =>
      DeadEnclosed(o, other, a, s0);
      if b.Some? {
        DeadEnclosed(o, other, b.value, BindDead(a, s0));
      }
    case While(_, _, body) => DeadEnclosed(o, other, body, s0);
    case Do(_, body, _) => DeadEnclosed(o, other, body, s0);
    case For(_, _, _, _, body) => DeadEnclosed(o, other, body, s0);
    case ForOf(_, _, _, body) => DeadEnclosed(o, other, body, s0);
    case Labeled(_, _, body) => DeadEnclosed(o, other, body, s0);
    case Switch(_, _, clauses) => DeadClausesEnclosed(o, other, clauses, s0);
    case Try(_, b, h, f) =>
      DeadsEnclosed(o, other, b, s0);
      var s1 := BindDeads(b, s0);
      if h.SomeBlock? {
        DeadsEnclosed(o, other, h.statements, s1);
      }
      if f.SomeBlock? {
        DeadsEnclosed(o, other, f.statements, if h.SomeBlock? then BindDeads(h.statements, s1) else s1);
      }
    case _ =>
  }

  lemma {:induction false} DeadsEnclosed(o: State, other: set<nat>, ss: seq<Stmt>, st: State)
    requires Enclosed(o, other, st) && IdsSeq(ss) !! other
    ensures Enclosed(o, other, BindDeads(ss, st))
    ensures |st.graph| <= |BindDeads(ss, st).graph|
    decreases ss, 1
  {
    hide Enclosed, BindDead, Ids;
    if ss != [] {
      DeadEnclosed(o, other, ss[0], st);
      DeadsEnclosed(o, other, ss[1..], BindDead(ss[0], st));
    }
  }

  lemma {:induction false} DeadClausesEnclosed(o: State, other: set<nat>, clauses: seq<Clause>, st: State)
    requires Enclosed(o, other, st) && IdsClauses(clauses) !! other
    ensures Enclosed(o, other, BindDeadClauses(clauses, st))
    ensures |st.graph| <= |BindDeadClauses(clauses, st).graph|
    decreases clauses, 1
  {
    hide Enclosed, BindDeads, IdsSeq;
    if clauses != [] {
      DeadsEnclosed(o, other, clauses[0].body, st);
      DeadClausesEnclosed(o, other, clauses[1..], BindDeads(clauses[0].body, st));
    }
  }

  // ----- functions -----

  lemma {:induction false} ContainerEnclosed(o: State, other: set<nat>, s: Stmt, st: State)
    requires s.Function? && Enclosed(o, other, st) && Ids(s) !! other
    ensures Enclosed(o, other, BindContainer(s, st))
    ensures |st.graph| <= |BindContainer(s, st).graph|
    decreases s, 0
  {
    hide Enclosed, BindBlock, LeaveContainer;
    EnclosedLength(o, other, st);
    var created := if s.isConstructor then [Start, BranchLabel([])] else [Start];
    var s0 := NewLabels(st, created).(flow := |st.graph|, explicitReturn := false);
    LabelsEnclosed(o, other, st, s0, created);
    BlockEnclosed(o, other, s.statements, ContainerContext(s, |st.graph|), s0);
    LeaveContainerEnclosed(o, other, s, st, BindBlock(s.statements, ContainerContext(s, |st.graph|), s0));
  }

  lemma MarkedEnclosed(o: State, other: set<nat>, a: State, b: State)
    requires Enclosed(o, other, a) && b.graph == a.graph && Inside(o, b.flow) && b.flow < |b.graph|
    requires forall k :: k in b.marks ==> k in a.marks || !k.FlowAt?
    ensures Enclosed(o, other, b)
  {
  }

  lemma LeaveContainerEnclosed(o: State, other: set<nat>, s: Stmt, before: State, st: State)
    requires s.Function? && Enclosed(o, other, st) && Inside(o, before.flow) && before.flow < |st.graph|
    requires |before.graph| >= |o.graph|
    ensures Enclosed(o, other, LeaveContainer(s, before, st))
    ensures |st.graph| <= |LeaveContainer(s, before, st).graph|
  {
    hide Enclosed, AddAntecedent, Resume, Dead;
    EnclosedLength(o, other, st);
    var target := |before.graph| + 1;
    var s1 := if Dead(st) then st
              else st.(marks := st.marks + {HasImplicitReturn(s.id), EndFlow(s.id, st.flow)}
                                + (if st.explicitReturn then {HasExplicitReturn(s.id)} else {}));
    MarkedEnclosed(o, other, st, s1);
    if s.isConstructor {
      JoinEnclosed(o, other, s1, target, s1.flow);
      ResumeEnclosed(o, other, Join(s1, target), target);
      MarkedEnclosed(o, other, Resume(Join(s1, target), target), LeaveContainer(s, before, st));
    } else {
      MarkedEnclosed(o, other, s1, LeaveContainer(s, before, st));
    }
  }
}
