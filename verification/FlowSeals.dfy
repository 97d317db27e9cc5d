/** Sealed labels: from the moment a label is completed, or its antecedents are copied into the lists of a
    finally block, it gains no antecedent, however binding goes on. So collapsing a label when it is
    completed loses no walk through the finished graph and adds none. */
module FlowSeals {
  import opened Wrappers
  import opened Syntax
  import opened FlowGraph
  import opened FlowBuilder
  import opened FlowGrowth
  import opened Execution
  import opened Walks
  import opened ExprSoundness
  import opened StmtSoundness
  import opened FlowTheorems

  /** Every label that has been sealed has the antecedents it had then. */
  ghost predicate SealsHold(st: State) {
    forall k :: k in st.sealed ==> IsJoin(st.graph, k.join) && Antecedents(st.graph, k.join) == k.antecedents
  }

  /** The seals hold, those of `kept` among them, and the labels that may still gain antecedents are not
      sealed. */
  ghost predicate Intact(kept: set<SealedLabel>, open: set<FlowId>, st: State) {
    && Valid(st) && SealsHold(st) && kept <= st.sealed
    && (forall t :: t in open ==> IsJoin(st.graph, t))
    && (forall k :: k in st.sealed ==> k.join !in open)
  }

  lemma OpenBelow(kept: set<SealedLabel>, open: set<FlowId>, st: State)
    requires Intact(kept, open, st)
    ensures Valid(st) && st.flow < |st.graph| && forall t :: t in open ==> t < |st.graph|
  {
  }

  lemma FewerOpen(kept: set<SealedLabel>, open: set<FlowId>, fewer: set<FlowId>, st: State)
    requires Intact(kept, open, st) && fewer <= open
    ensures Intact(kept, fewer, st)
  {
  }

  /** A step that seals nothing and adds to open labels only. */
  lemma IntactStep(kept: set<SealedLabel>, open: set<FlowId>, targets: set<FlowId>, a: State, b: State)
    requires Intact(kept, open, a) && Grows(targets, a, b) && Valid(b) && b.sealed == a.sealed
    requires forall t :: t in targets && t < |a.graph| ==> t in open
    ensures Intact(kept, open, b)
  {
    forall t: FlowId | t < |a.graph| && IsJoin(a.graph, t)
      ensures IsJoin(b.graph, t)
    {
      assert Refines(a.graph[t], b.graph[t]);
    }
    forall k | k in b.sealed
      ensures Antecedents(b.graph, k.join) == k.antecedents
    {
      assert k.join !in targets && b.graph[k.join] == a.graph[k.join];
    }
  }

  /** New labels are open. */
  lemma NewIntact(kept: set<SealedLabel>, open: set<FlowId>, a: State, b: State, nodes: seq<FlowNode>,
                  labels: set<FlowId>)
    requires Intact(kept, open, a) && b.graph == a.graph + nodes && b.sealed == a.sealed && Valid(b)
    requires forall t :: t in labels ==> |a.graph| <= t && IsJoin(b.graph, t)
    ensures Intact(kept, open + labels, b)
  {
    forall t: FlowId | t < |a.graph| && IsJoin(a.graph, t)
      ensures IsJoin(b.graph, t) && Antecedents(b.graph, t) == Antecedents(a.graph, t)
    {
      assert b.graph[t] == a.graph[t];
    }
  }

  /** Only the flow and what is recorded on the tree have changed. */
  lemma MovedIntact(kept: set<SealedLabel>, open: set<FlowId>, a: State, b: State)
    requires Intact(kept, open, a) && b.graph == a.graph && b.sealed == a.sealed && b.flow < |b.graph|
    ensures Intact(kept, open, b)
  {
  }

  lemma JoinIntact(kept: set<SealedLabel>, open: set<FlowId>, st: State, join: FlowId, from: FlowId)
    requires Intact(kept, open, st) && join in open && from < |st.graph|
    ensures Intact(kept, open, JoinFrom(st, join, from))
  {
    hide Intact, AddAntecedent, Grows;
    OpenBelow(kept, open, st);
    JoinFromGrows(st, join, from);
    IntactStep(kept, open, {join}, st, JoinFrom(st, join, from));
  }

  /** A label is sealed while it is open, and never again. */
  lemma SealIntact(kept: set<SealedLabel>, open: set<FlowId>, st: State, join: FlowId)
    requires Intact(kept, open, st) && join in open
    ensures Intact(kept, open - {join}, Seal(st, join))
  {
  }

  lemma ResumeIntact(kept: set<SealedLabel>, open: set<FlowId>, st: State, join: FlowId)
    requires Intact(kept, open, st) && join in open
    ensures Intact(kept, open - {join}, Resume(st, join))
  {
    hide Intact, FinishFlowLabel, Grows;
    OpenBelow(kept, open, st);
    SealIntact(kept, open, st, join);
    ResumeGrows(st, join);
    FlowInRange(Resume(st, join));
    MovedIntact(kept, open - {join}, Seal(st, join), Resume(st, join));
  }

  lemma MutateIntact(kept: set<SealedLabel>, open: set<FlowId>, st: State, exc: Option<FlowId>, x: string)
    requires Intact(kept, open, st) && Optional(exc) <= open
    ensures Intact(kept, open, Mutate(st, exc, x))
  {
    hide Intact, Grows, AddAntecedent;
    OpenBelow(kept, open, st);
    MutateGrows(st, exc, x);
    IntactStep(kept, open, Optional(exc), st, Mutate(st, exc, x));
  }

  lemma AddConditionsIntact(kept: set<SealedLabel>, open: set<FlowId>, st: State, t: FlowId, f: FlowId, e: Option<Expr>)
    requires Intact(kept, open, st) && t in open && f in open
    ensures Intact(kept, open, AddConditions(st, t, f, e))
  {
    hide Intact, Grows, AddAntecedent, CreateCondition;
    OpenBelow(kept, open, st);
    AddConditionsGrows(st, t, f, e);
    IntactStep(kept, open, {t, f}, st, AddConditions(st, t, f, e));
  }

  // ----- expressions -----

  lemma {:induction false} ExprIntact(kept: set<SealedLabel>, e: Expr, mode: Mode, exc: Option<FlowId>, st: State,
                                      open: set<FlowId>)
    requires Intact(kept, open, st) && ModeTargets(mode) <= open && Optional(exc) <= open
    ensures Intact(kept, open, BindExpr(e, mode, exc, st))
    decreases e, 1
  {
    hide Intact, Dead, Mutate, BindLogical, BindConditional;
    if !Dead(st) {
      match e
      case Paren(x) => ExprIntact(kept, x, mode, exc, st, open);
      case Not(x) => ExprIntact(kept, x, Negated(mode), exc, st, open);
      case Logical(_, _, _) => LogicalIntact(kept, e, mode, exc, st, open);
      case LogicalAssign(_, _, _, _) => LogicalIntact(kept, e, mode, exc, st, open);
      case Assign(x, _, r) =>
        ExprIntact(kept, r, AsValue, exc, st, open);
        MutateIntact(kept, open, BindExpr(r, AsValue, exc, st), exc, x);
      case Conditional(_, _, _) => ConditionalIntact(kept, e, exc, st, open);
      case Binary(_, l, r) =>
        ExprIntact(kept, l, AsValue, exc, st, open);
        ExprIntact(kept, r, AsValue, exc, BindExpr(l, AsValue, exc, st), open);
      case Call(_, _, a) => ExprIntact(kept, a, AsValue, exc, st, open);
      case _ =>
    }
  }

  lemma {:induction false} ConditionIntact(kept: set<SealedLabel>, e: Expr, t: FlowId, f: FlowId, exc: Option<FlowId>,
                                           st: State, open: set<FlowId>)
    requires Intact(kept, open, st) && t in open && f in open && Optional(exc) <= open
    ensures Intact(kept, open, BindCondition(e, t, f, exc, st))
    decreases e, 2
  {
    hide Intact, BindExpr, AddConditions;
    ExprIntact(kept, e, AsBranch(t, f), exc, st, open);
    AddConditionsIntact(kept, open, BindExpr(e, AsBranch(t, f), exc, st), t, f, Some(e));
  }

  lemma NewBranches(kept: set<SealedLabel>, open: set<FlowId>, st: State, effects: bool)
    requires Intact(kept, open, st)
    ensures var s0 := NewLabels(st, BRANCHES).(effects := effects);
            && Intact(kept, open + {|st.graph|, |st.graph| + 1, |st.graph| + 2}, s0) && |s0.graph| == |st.graph| + 3
  {
    hide Grows;
    var s0 := NewLabels(st, BRANCHES).(effects := effects);
    FlowInRange(st);
    AppendGrows(st, s0, BRANCHES);
    NewIntact(kept, open, st, s0, BRANCHES, {|st.graph|, |st.graph| + 1, |st.graph| + 2});
  }

  lemma NewBranch(kept: set<SealedLabel>, open: set<FlowId>, st: State, effects: bool)
    requires Intact(kept, open, st)
    ensures var s0 := NewNode(st, BranchLabel([])).(effects := effects);
            && Intact(kept, open + {|st.graph|}, s0) && |s0.graph| == |st.graph| + 1
  {
    hide Grows;
    var s0 := NewNode(st, BranchLabel([])).(effects := effects);
    FlowInRange(st);
    AppendGrows(st, s0, [BranchLabel([])]);
    NewIntact(kept, open, st, s0, [BranchLabel([])], {|st.graph|});
  }

  lemma {:induction false} ArmIntact(kept: set<SealedLabel>, a: Expr, arm: FlowId, post: FlowId, exc: Option<FlowId>,
                                     st: State, open: set<FlowId>)
    requires Intact(kept, open, st) && arm in open && post in open && post != arm && Optional(exc) <= open - {arm}
    ensures Intact(kept, open - {arm}, Join(BindExpr(a, AsValue, exc, Resume(st, arm)), post))
    decreases a, 2
  {
    hide Intact, BindExpr, Resume, AddAntecedent;
    var r := Resume(st, arm);
    ResumeIntact(kept, open, st, arm);
    ExprIntact(kept, a, AsValue, exc, r, open - {arm});
    var s := BindExpr(a, AsValue, exc, r);
    OpenBelow(kept, open - {arm}, s);
    JoinIntact(kept, open - {arm}, s, post, s.flow);
  }

  lemma WithoutEffectsIntact(kept: set<SealedLabel>, open: set<FlowId>, before: State, after: State, post: FlowId)
    requires Intact(kept, open + {post}, after) && before.flow < |after.graph| && post !in open
    ensures Intact(kept, open, WithoutEffects(before, after, post))
  {
    hide Intact, Resume;
    ResumeIntact(kept, open + {post}, after, post);
    assert open + {post} - {post} == open;
    FewerOpen(kept, open + {post}, open, after);
    var s := if after.effects then Resume(after, post) else after.(flow := before.flow);
    assert Intact(kept, open, s) by {
      if !after.effects {
        MovedIntact(kept, open, after, s);
      }
    }
    OpenBelow(kept, open, s);
    MovedIntact(kept, open, s, WithoutEffects(before, after, post));
  }

  lemma {:induction false} ConditionalIntact(kept: set<SealedLabel>, e: Expr, exc: Option<FlowId>, st: State,
                                             open: set<FlowId>)
    requires e.Conditional? && Intact(kept, open, st) && Optional(exc) <= open
    ensures Intact(kept, open, BindConditional(e, exc, st))
    decreases e, 0
  {
    hide Intact, BindExpr, BindCondition, Resume, AddAntecedent, WithoutEffects, Grows;
    var whenTrue, whenFalse, post := |st.graph|, |st.graph| + 1, |st.graph| + 2;
    var all := open + {whenTrue, whenFalse, post};
    OpenBelow(kept, open, st);
    NewBranches(kept, open, st, false);
    var s0 := NewLabels(st, BRANCHES).(effects := false);
    ConditionIntact(kept, e.condition, whenTrue, whenFalse, exc, s0, all);
    var s1 := BindCondition(e.condition, whenTrue, whenFalse, exc, s0);
    ArmIntact(kept, e.whenTrue, whenTrue, post, exc, s1, all);
    var s2 := Join(BindExpr(e.whenTrue, AsValue, exc, Resume(s1, whenTrue)), post);
    ArmIntact(kept, e.whenFalse, whenFalse, post, exc, s2, all - {whenTrue});
    var s3 := Join(BindExpr(e.whenFalse, AsValue, exc, Resume(s2, whenFalse)), post);
    assert all - {whenTrue} - {whenFalse} == open + {post};
    PostBelow(kept, open, post, s3);
    WithoutEffectsIntact(kept, open, st, s3, post);
  }

  lemma PostBelow(kept: set<SealedLabel>, open: set<FlowId>, post: FlowId, st: State)
    requires Intact(kept, open + {post}, st)
    ensures post < |st.graph|
  {
    assert post in open + {post};
  }

  lemma {:induction false} LogicalIntact(kept: set<SealedLabel>, e: Expr, mode: Mode, exc: Option<FlowId>, st: State,
                                         open: set<FlowId>)
    requires e.Logical? || e.LogicalAssign?
    requires Intact(kept, open, st) && ModeTargets(mode) <= open && Optional(exc) <= open
    ensures Intact(kept, open, BindLogical(e, mode, exc, st))
    decreases e, 0, 3
  {
    hide Intact, BindLogicalLike, WithoutEffects;
    match mode
    case AsBranch(t, f) => LogicalLikeIntact(kept, e, t, f, exc, st, open);
    case AsValue =>
      var post := |st.graph|;
      OpenBelow(kept, open, st);
      NewBranch(kept, open, st, false);
      var s0 := NewNode(st, BranchLabel([])).(effects := false);
      LogicalLikeIntact(kept, e, post, post, exc, s0, open + {post});
      var s1 := BindLogicalLike(e, post, post, exc, s0);
      PostBelow(kept, open, post, s1);
      WithoutEffectsIntact(kept, open, st, s1, post);
  }

  lemma {:induction false} LogicalLikeIntact(kept: set<SealedLabel>, e: Expr, t: FlowId, f: FlowId, exc: Option<FlowId>,
                                             st: State, open: set<FlowId>)
    requires e.Logical? || e.LogicalAssign?
    requires Intact(kept, open, st) && t in open && f in open && Optional(exc) <= open
    ensures Intact(kept, open, BindLogicalLike(e, t, f, exc, st))
    decreases e, 0, 2
  {
    hide Intact, BindCondition, BindExpr, Resume, AddConditions, Mutate;
    var pre, all := |st.graph|, open + {|st.graph|};
    OpenBelow(kept, open, st);
    NewBranch(kept, open, st, st.effects);
    var s0 := NewNode(st, BranchLabel([]));
    assert s0 == s0.(effects := st.effects);
    assert all - {pre} == open;
    if e.Logical? {
      var lt, lf := LeftTrue(e, t, pre), LeftFalse(e, f, pre);
      ConditionIntact(kept, e.left, lt, lf, exc, s0, all);
      var s1 := BindCondition(e.left, lt, lf, exc, s0);
      ResumeIntact(kept, all, s1, pre);
      ConditionIntact(kept, e.right, t, f, exc, Resume(s1, pre), open);
    } else {
      var lt, lf := LeftTrue(e, t, pre), LeftFalse(e, f, pre);
      AddConditionsIntact(kept, all, s0, lt, lf, Some(Target(e)));
      var s1 := Resume(AddConditions(s0, lt, lf, Some(Target(e))), pre);
      ResumeIntact(kept, all, AddConditions(s0, lt, lf, Some(Target(e))), pre);
      assert BindLogicalLike(e, t, f, exc, st) == BindLogicalAssign(e, t, f, pre, exc, s0);
      assert BindLogicalAssign(e, t, f, pre, exc, s0) == BindAssignedRight(e, t, f, exc, s1);
      ExprIntact(kept, e.right, AsValue, exc, s1, open);
      MutateIntact(kept, open, BindExpr(e.right, AsValue, exc, s1), exc, e.target);
      AddConditionsIntact(kept, open, Mutate(BindExpr(e.right, AsValue, exc, s1), exc, e.target), t, f, Some(e));
    }
  }

  lemma OptionalIntact(kept: set<SealedLabel>, e: Option<Expr>, exc: Option<FlowId>, st: State, open: set<FlowId>)
    requires Intact(kept, open, st) && Optional(exc) <= open
    ensures Intact(kept, open, BindOptional(e, exc, st))
  {
    hide Intact, BindExpr;
    if e.Some? {
      ExprIntact(kept, e.value, AsValue, exc, st, open);
    }
  }

  lemma OptionalConditionIntact(kept: set<SealedLabel>, e: Option<Expr>, t: FlowId, f: FlowId, exc: Option<FlowId>,
                                st: State, open: set<FlowId>)
    requires Intact(kept, open, st) && t in open && f in open && Optional(exc) <= open
    ensures Intact(kept, open, BindOptionalCondition(e, t, f, exc, st))
  {
    hide Intact, BindCondition, AddConditions;
    match e
    case None => AddConditionsIntact(kept, open, st, t, f, None);
    case Some(x) => ConditionIntact(kept, x, t, f, exc, st, open);
  }

  // ----- statements -----

  lemma {:induction false} StmtIntact(kept: set<SealedLabel>, s: Stmt, ctx: Context, st: State, open: set<FlowId>)
    requires Intact(kept, open, st) && Targets(ctx) <= open
    ensures Intact(kept, open, BindStmt(s, ctx, st))
    decreases s, 4
  {
    hide Intact, BindLive, BindContainer, BindDead, Dead, Targets;
    if s.Function? {
      ContainerIntact(kept, s, st, open);
    } else if Dead(st) {
      DeadIntact(kept, s, st, open);
    } else {
      OpenBelow(kept, open, st);
      MovedIntact(kept, open, st, Record(s, st));
      LiveIntact(kept, s, ctx, Record(s, st), open);
    }
  }

  /** A statement that is part of another. */
  lemma {:induction false} PartIntact(kept: set<SealedLabel>, s: Stmt, ctx: Context, st: State, open: set<FlowId>,
                                      join: FlowId)
    requires Intact(kept, open, st) && Targets(ctx) <= open && join in open
    ensures Intact(kept, open, Join(BindStmt(s, ctx, st), join)) && Intact(kept, open, BindStmt(s, ctx, st))
    decreases s, 5
  {
    hide Intact, BindStmt, AddAntecedent, Targets;
    StmtIntact(kept, s, ctx, st, open);
    OpenBelow(kept, open, BindStmt(s, ctx, st));
    JoinIntact(kept, open, BindStmt(s, ctx, st), join, BindStmt(s, ctx, st).flow);
  }

  lemma {:induction false} LiveIntact(kept: set<SealedLabel>, s: Stmt, ctx: Context, st: State, open: set<FlowId>)
    requires Intact(kept, open, st) && Targets(ctx) <= open
    ensures Intact(kept, open, BindLive(s, ctx, st))
    decreases s, 3
  {
    hide Intact, BindExpr, BindBlock, BindOptional, Mutate, BindSwitch, BindTry, Targets, Resume, AddAntecedent;
    OwnTargets(ctx);
    var exc := ctx.exceptionTarget;
    match s
    case Block(_, ss) => BlockIntact(kept, ss, Inner(ctx), st, open);
    case Var(_, x, init) =>
      OptionalIntact(kept, init, exc, st, open);
      MutateIntact(kept, open, BindOptional(init, exc, st), exc, x);
    case ExprStmt(_, e) =>
      ExprIntact(kept, e, AsValue, exc, st, open);
      CallIntact(kept, open, BindExpr(e, AsValue, exc, st), e);
    case If(_, _, _, _) => IfIntact(kept, s, ctx, st, open);
    case While(_, _, _) => WhileIntact(kept, s, ctx, st, open);
    case Do(_, _, _) => DoIntact(kept, s, ctx, st, open);
    case For(_, _, _, _, _) => ForIntact(kept, s, ctx, st, open);
    case ForOf(_, _, _, _) => ForOfIntact(kept, s, ctx, st, open);
    case Break(_, d) =>
      JumpTargets(ctx, d);
      JumpIntact(kept, open, st, BreakTarget(ctx, d));
    case Continue(_, d) =>
      JumpTargets(ctx, d);
      JumpIntact(kept, open, st, ContinueTarget(ctx, d));
    case Return(_, e) =>
      OptionalIntact(kept, e, exc, st, open);
      var s1 := BindOptional(e, exc, st);
      if ctx.returnTarget.Some? {
        assert ctx.returnTarget.value in Optional(ctx.returnTarget);
        OpenBelow(kept, open, s1);
        JoinIntact(kept, open, s1, ctx.returnTarget.value, s1.flow);
        EndIntact(kept, open, Join(s1, ctx.returnTarget.value));
      } else {
        EndIntact(kept, open, s1);
      }
    case Throw(_, e) =>
      ExprIntact(kept, e, AsValue, exc, st, open);
      EndIntact(kept, open, BindExpr(e, AsValue, exc, st));
    case Switch(_, _, _) => SwitchIntact(kept, s, ctx, st, open);
    case Labeled(_, _, _) => LabeledIntact(kept, s, ctx, st, open);
    case Try(_, _, _, _) => TryIntact(kept, s, Inner(ctx), st, open);
    case _ =>
  }

  lemma CallIntact(kept: set<SealedLabel>, open: set<FlowId>, st: State, e: Expr)
    requires Intact(kept, open, st)
    ensures Intact(kept, open, CallEffect(st, e))
  {
    hide Grows;
    FlowInRange(st);
    AppendGrows(st, CallEffect(st, e), [AssertionCall(e, st.flow)]);
    IntactStep(kept, open, {}, st, CallEffect(st, e));
  }

  lemma EndIntact(kept: set<SealedLabel>, open: set<FlowId>, st: State)
    requires Intact(kept, open, st)
    ensures Intact(kept, open, Terminate(st)) && Intact(kept, open, Terminate(st).(explicitReturn := true))
  {
  }

  lemma JumpIntact(kept: set<SealedLabel>, open: set<FlowId>, st: State, target: Option<FlowId>)
    requires Intact(kept, open, st) && Optional(target) <= open
    ensures Intact(kept, open, Jump(st, target))
  {
    hide Intact, AddAntecedent;
    if target.Some? {
      assert target.value in Optional(target);
      OpenBelow(kept, open, st);
      JoinIntact(kept, open, st, target.value, st.flow);
      EndIntact(kept, open, Join(st, target.value));
    }
  }

  lemma {:induction false} IfIntact(kept: set<SealedLabel>, s: Stmt, ctx: Context, st: State, open: set<FlowId>)
    requires s.If? && Intact(kept, open, st) && Targets(ctx) <= open
    ensures Intact(kept, open, BindLive(s, ctx, st))
    decreases s, 2
  {
    hide Intact, BindStmt, BindCondition, AddAntecedent, Resume, Targets;
    OwnTargets(ctx);
    OpenBelow(kept, open, st);
    var thenLabel, elseLabel, post := |st.graph|, |st.graph| + 1, |st.graph| + 2;
    var all := open + {thenLabel, elseLabel, post};
    NewBranches(kept, open, st, st.effects);
    var s0 := NewLabels(st, BRANCHES);
    assert s0 == s0.(effects := st.effects);
    ConditionIntact(kept, s.cond, thenLabel, elseLabel, ctx.exceptionTarget, s0, all);
    var s1 := BindCondition(s.cond, thenLabel, elseLabel, ctx.exceptionTarget, s0);
    ResumeIntact(kept, all, s1, thenLabel);
    PartIntact(kept, s.thenStmt, Inner(ctx), Resume(s1, thenLabel), all - {thenLabel}, post);
    var s2 := Join(BindStmt(s.thenStmt, Inner(ctx), Resume(s1, thenLabel)), post);
    ResumeIntact(kept, all - {thenLabel}, s2, elseLabel);
    var s3, two := Resume(s2, elseLabel), all - {thenLabel} - {elseLabel};
    if s.elseStmt.Some? {
      PartIntact(kept, s.elseStmt.value, Inner(ctx), s3, two, post);
    } else {
      OpenBelow(kept, two, s3);
      JoinIntact(kept, two, s3, post, s3.flow);
    }
    var s4 := Join(if s.elseStmt.Some? then BindStmt(s.elseStmt.value, Inner(ctx), s3) else s3, post);
    ResumeIntact(kept, two, s4, post);
    assert two - {post} == open;
  }

  lemma NewLoop(kept: set<SealedLabel>, open: set<FlowId>, st: State, flow: FlowId)
    requires Intact(kept, open, st) && flow < |st.graph| + 3
    ensures var s0 := NewLabels(st, LOOP).(flow := flow);
            && Intact(kept, open + {|st.graph|, |st.graph| + 1, |st.graph| + 2}, s0) && |s0.graph| == |st.graph| + 3
  {
    hide Grows;
    var s0 := NewLabels(st, LOOP).(flow := flow);
    AppendGrows(st, s0, LOOP);
    NewIntact(kept, open, st, s0, LOOP, {|st.graph|, |st.graph| + 1, |st.graph| + 2});
  }

  /** The end of a loop. */
  lemma LoopEndIntact(kept: set<SealedLabel>, open: set<FlowId>, st: State, pre: FlowId, top: FlowId, post: FlowId)
    requires Intact(kept, open + {pre, post}, st) && top < |st.graph| && pre !in open && post !in open && pre != post
    ensures Intact(kept, open, Resume(JoinFrom(Join(st, pre), pre, top), post))
    ensures Intact(kept, open, Resume(JoinFrom(st, pre, top), post))
  {
    hide Intact, AddAntecedent, Resume;
    var all := open + {pre, post};
    OpenBelow(kept, all, st);
    JoinIntact(kept, all, st, pre, st.flow);
    SameLength(st, pre, st.flow);
    JoinIntact(kept, all, Join(st, pre), pre, top);
    ResumeIntact(kept, all, JoinFrom(Join(st, pre), pre, top), post);
    FewerOpen(kept, all - {post}, open, Resume(JoinFrom(Join(st, pre), pre, top), post));
    JoinIntact(kept, all, st, pre, top);
    ResumeIntact(kept, all, JoinFrom(st, pre, top), post);
    FewerOpen(kept, all - {post}, open, Resume(JoinFrom(st, pre, top), post));
  }

  lemma SameLength(st: State, join: FlowId, from: FlowId)
    ensures |JoinFrom(st, join, from).graph| == |st.graph|
  {
  }

  /** A body is bound while its loop's labels are open. */
  lemma {:induction false} LoopBodyIntact(kept: set<SealedLabel>, body: Stmt, ctx: Context, post: FlowId, cont: FlowId,
                                          st: State, open: set<FlowId>)
    requires Intact(kept, open + {cont, post}, st) && Targets(ctx) <= open
    ensures Intact(kept, open + {cont, post}, BindStmt(body, LoopContext(ctx, post, cont), st))
    decreases body, 5
  {
    hide Intact, BindStmt, Targets, LoopContext;
    LoopContextTargets(ctx, post, cont);
    StmtIntact(kept, body, LoopContext(ctx, post, cont), st, open + {cont, post});
  }

  /** The flow from above a loop exists all along. */
  lemma StillThere(a: State, b: State, f: FlowId)
    requires Earlier(a, b) && f < |a.graph|
    ensures f < |b.graph|
  {
  }

  lemma {:induction false} WhileIntact(kept: set<SealedLabel>, s: Stmt, ctx: Context, st: State, open: set<FlowId>)
    requires s.While? && Intact(kept, open, st) && Targets(ctx) <= open
    ensures Intact(kept, open, BindLive(s, ctx, st))
    decreases s, 2
  {
    hide Intact, BindStmt, BindCondition, AddAntecedent, Resume, Targets, LoopContext, Earlier;
    OwnTargets(ctx);
    OpenBelow(kept, open, st);
    var pre, preBody, post := |st.graph|, |st.graph| + 1, |st.graph| + 2;
    var all := open + {pre, preBody, post};
    var s0, s1, s2, done := WhileStages(s, ctx, st);
    NewLoop(kept, open, st, pre);
    ConditionIntact(kept, s.cond, preBody, post, ctx.exceptionTarget, s0, all);
    OpenBelow(kept, all, s1);
    ResumeIntact(kept, all, s1, preBody);
    assert all - {preBody} == open + {pre, post};
    LoopBodyIntact(kept, s.body, ctx, post, pre, Resume(s1, preBody), open);
    BodyKept(s.body, LoopContext(ctx, post, pre), s1, preBody);
    EarlierTrans(s0, s1, s2);
    EarlierTrans(st, s0, s2);
    StillThere(st, s2, st.flow);
    LoopEndIntact(kept, open, s2, pre, st.flow, post);
  }

  lemma BodyKept(body: Stmt, ctx: Context, st: State, from: FlowId)
    requires Valid(st)
    ensures Earlier(st, BindStmt(body, ctx, Resume(st, from)))
  {
    hide Valid, Extends, BindStmt, Resume;
    ResumeEarlier(st, from);
    StmtEarlier(body, ctx, Resume(st, from));
    EarlierTrans(st, Resume(st, from), BindStmt(body, ctx, Resume(st, from)));
  }

  lemma {:induction false} DoIntact(kept: set<SealedLabel>, s: Stmt, ctx: Context, st: State, open: set<FlowId>)
    requires s.Do? && Intact(kept, open, st) && Targets(ctx) <= open
    ensures Intact(kept, open, BindLive(s, ctx, st))
    decreases s, 2
  {
    hide Intact, BindStmt, BindCondition, AddAntecedent, Resume, Targets, LoopContext, Extends, Valid;
    OwnTargets(ctx);
    OpenBelow(kept, open, st);
    var pre, preCondition, post := |st.graph|, |st.graph| + 1, |st.graph| + 2;
    var all := open + {pre, preCondition, post};
    var s0, b, s1, s2, done := DoStages(s, ctx, st);
    NewLoop(kept, open, st, pre);
    assert all == open + {pre} + {preCondition, post};
    LoopBodyIntact(kept, s.body, ctx, post, preCondition, s0, open + {pre});
    OpenBelow(kept, all, b);
    JoinIntact(kept, all, b, preCondition, b.flow);
    ResumeIntact(kept, all, Join(b, preCondition), preCondition);
    assert all - {preCondition} == open + {pre, post};
    ConditionIntact(kept, s.cond, pre, post, ctx.exceptionTarget, s1, open + {pre, post});
    StillThere(st, s2, st.flow);
    LoopEndIntact(kept, open, s2, pre, st.flow, post);
  }

  lemma {:induction false} ForIntact(kept: set<SealedLabel>, s: Stmt, ctx: Context, st: State, open: set<FlowId>)
    requires s.For? && Intact(kept, open, st) && Targets(ctx) <= open
    ensures Intact(kept, open, BindLive(s, ctx, st))
    decreases s, 2
  {
    hide Intact, BindStmt, BindOptional, BindOptionalCondition, AddAntecedent, Resume, Targets, LoopContext, Extends,
         Valid;
    OwnTargets(ctx);
    OpenBelow(kept, open, st);
    var exc := ctx.exceptionTarget;
    var pre, preBody, post := |st.graph|, |st.graph| + 1, |st.graph| + 2;
    var all := open + {pre, preBody, post};
    var s0, s1, s2, s3, s4, done := ForStages(s, ctx, st);
    NewLoop(kept, open, st, st.flow);
    assert s0.(flow := st.flow) == s0;
    OptionalIntact(kept, s.init, exc, s0, all);
    OpenBelow(kept, all, s1);
    MovedIntact(kept, all, s1, s1.(flow := pre));
    OptionalConditionIntact(kept, s.test, preBody, post, exc, s1.(flow := pre), all);
    ResumeIntact(kept, all, s2, preBody);
    assert all - {preBody} == open + {pre, post};
    LoopBodyIntact(kept, s.body, ctx, post, pre, Resume(s2, preBody), open);
    OptionalIntact(kept, s.incr, exc, s3, open + {pre, post});
    SameLength(s4, pre, s4.flow);
    LoopEndIntact(kept, open, s4, pre, s1.flow, post);
  }

  lemma {:induction false} ForOfIntact(kept: set<SealedLabel>, s: Stmt, ctx: Context, st: State, open: set<FlowId>)
    requires s.ForOf? && Intact(kept, open, st) && Targets(ctx) <= open
    ensures Intact(kept, open, BindLive(s, ctx, st))
    decreases s, 2
  {
    hide Intact, BindStmt, BindExpr, Mutate, AddAntecedent, Resume, Targets, LoopContext, Extends, Valid, Grows;
    OwnTargets(ctx);
    OpenBelow(kept, open, st);
    var exc := ctx.exceptionTarget;
    var pre, post, two := |st.graph|, |st.graph| + 1, open + {|st.graph|, |st.graph| + 1};
    var s0, s1, t1, s2, s3, done := ForOfStages(s, ctx, st);
    assert Intact(kept, two, s0) by {
      AppendGrows(st, s0, [LoopLabel([]), BranchLabel([])]);
      NewIntact(kept, open, st, s0, [LoopLabel([]), BranchLabel([])], {pre, post});
    }
    ExprIntact(kept, s.expr, AsValue, exc, s0, two);
    OpenBelow(kept, two, s1);
    MovedIntact(kept, two, s1, s1.(flow := pre));
    JoinIntact(kept, two, s1.(flow := pre), post, pre);
    MutateIntact(kept, two, t1, exc, s.target);
    LoopBodyIntact(kept, s.body, ctx, post, pre, s2, open);
    SameLength(s3, pre, s3.flow);
    LoopEndIntact(kept, open, s3, pre, s1.flow, post);
  }

  lemma {:induction false} LabeledIntact(kept: set<SealedLabel>, s: Stmt, ctx: Context, st: State, open: set<FlowId>)
    requires s.Labeled? && Intact(kept, open, st) && Targets(ctx) <= open
    ensures Intact(kept, open, BindLive(s, ctx, st))
    decreases s, 2
  {
    hide Intact, BindStmt, AddAntecedent, Resume, Targets, LabelContext;
    OpenBelow(kept, open, st);
    var post, all := |st.graph|, open + {|st.graph|};
    NewBranch(kept, open, st, st.effects);
    var s0 := NewNode(st, BranchLabel([]));
    assert s0 == s0.(effects := st.effects);
    LabelContextTargets(ctx, s.name, post);
    PartIntact(kept, s.body, LabelContext(ctx, s.name, post), s0, all, post);
    ResumeIntact(kept, all, Join(BindStmt(s.body, LabelContext(ctx, s.name, post), s0), post), post);
    assert all - {post} == open;
  }

  // ----- blocks -----

  lemma {:induction false} BlockIntact(kept: set<SealedLabel>, ss: seq<Stmt>, ctx: Context, st: State, open: set<FlowId>)
    requires Intact(kept, open, st) && Targets(ctx) <= open
    ensures Intact(kept, open, BindBlock(ss, ctx, st))
    decreases ss, 2
  {
    hide Intact, Targets, BindFunctions, BindOthers, BindDeads;
    if Dead(st) {
      DeadsIntact(kept, ss, st, open);
    } else {
      FunctionsIntact(kept, ss, st, open);
      OthersIntact(kept, ss, ctx, BindFunctions(ss, st), open);
    }
  }

  lemma {:induction false} FunctionsIntact(kept: set<SealedLabel>, ss: seq<Stmt>, st: State, open: set<FlowId>)
    requires Intact(kept, open, st)
    ensures Intact(kept, open, BindFunctions(ss, st))
    decreases ss, 1
  {
    hide Intact, BindContainer;
    if ss != [] {
      if ss[0].Function? {
        ContainerIntact(kept, ss[0], st, open);
      }
      FunctionsIntact(kept, ss[1..], if ss[0].Function? then BindContainer(ss[0], st) else st, open);
    }
  }

  lemma {:induction false} OthersIntact(kept: set<SealedLabel>, ss: seq<Stmt>, ctx: Context, st: State,
                                        open: set<FlowId>)
    requires Intact(kept, open, st) && Targets(ctx) <= open
    ensures Intact(kept, open, BindOthers(ss, ctx, st))
    decreases ss, 1
  {
    hide Intact, BindStmt, Targets;
    if ss != [] {
      if !ss[0].Function? {
        StmtIntact(kept, ss[0], ctx, st, open);
      }
      OthersIntact(kept, ss[1..], ctx, if ss[0].Function? then st else BindStmt(ss[0], ctx, st), open);
    }
  }

  lemma {:induction false} EachIntact(kept: set<SealedLabel>, ss: seq<Stmt>, ctx: Context, st: State, open: set<FlowId>)
    requires Intact(kept, open, st) && Targets(ctx) <= open
    ensures Intact(kept, open, BindEach(ss, ctx, st))
    decreases ss, 1
  {
    hide Intact, BindStmt, Targets;
    if ss != [] {
      StmtIntact(kept, ss[0], ctx, st, open);
      EachIntact(kept, ss[1..], ctx, BindStmt(ss[0], ctx, st), open);
    }
  }

  // ----- try -----

  /** A guarded part, with its own exception label, up to the normal exit. */
  lemma {:induction false} GuardedPartIntact(kept: set<SealedLabel>, s: Stmt, ss: seq<Stmt>, ctx: Context, st: State,
                                             exit: FlowId, returned: FlowId,
                                             exceptions: FlowId, open: set<FlowId>)
    requires s.Try? && Intact(kept, open, st) && Targets(ctx) <= open && exit in open && returned in open
    requires exceptions in open
    ensures Intact(kept, open, Join(BindBlock(ss, TryContext(s, ctx, returned, exceptions), Join(st, exceptions)), exit))
    decreases ss, 3
  {
    hide Intact, BindBlock, Targets, AddAntecedent, TryContext;
    OpenBelow(kept, open, st);
    JoinIntact(kept, open, st, exceptions, st.flow);
    TryContextTargets(s, ctx, returned, exceptions);
    var inner := TryContext(s, ctx, returned, exceptions);
    BlockIntact(kept, ss, inner, Join(st, exceptions), open);
    var r := BindBlock(ss, inner, Join(st, exceptions));
    OpenBelow(kept, open, r);
    JoinIntact(kept, open, r, exit, r.flow);
  }

  lemma {:induction false} GuardedIntact(kept: set<SealedLabel>, s: Stmt, ctx: Context, st: State, open: set<FlowId>)
    requires s.Try? && Intact(kept, open, st) && Targets(ctx) <= open
    ensures var g := BindGuarded(s, ctx, st);
            && Intact(kept, open + {|st.graph|, |st.graph| + 1, g.exceptions}, g.state)
            && |st.graph| + 1 < g.exceptions
    decreases s, 1
  {
    hide Intact, BindBlock, Targets, AddAntecedent, TryContext, Resume, Extends, Grows;
    OpenBelow(kept, open, st);
    var exit, returned, exceptions := |st.graph|, |st.graph| + 1, |st.graph| + 2;
    var all := open + {exit, returned, exceptions};
    NewBranches(kept, open, st, st.effects);
    var g0 := NewLabels(st, BRANCHES);
    assert g0 == g0.(effects := st.effects);
    GuardedPartIntact(kept, s, s.block, ctx, g0, exit, returned, exceptions, all);
    var s1 := BindTryBlock(s, ctx, st);
    if s.handler.SomeBlock? {
      TryBlockGrows(s, ctx, st);
      ResumeIntact(kept, all, s1, exceptions);
      var c0, two := Resume(s1, exceptions), all - {exceptions};
      assert |c0.graph| == |s1.graph| by { ResumeLength(s1, exceptions); }
      NewBranch(kept, two, c0, c0.effects);
      var c1 := NewNode(c0, BranchLabel([]));
      assert c1 == c1.(effects := c0.effects);
      GuardedPartIntact(kept, s, s.handler.statements, ctx, c1, exit, returned, |c0.graph|, two + {|c0.graph|});
      assert two + {|c0.graph|} == open + {exit, returned, |c0.graph|};
    }
  }

  lemma ResumeLength(st: State, join: FlowId)
    ensures |Resume(st, join).graph| == |st.graph|
  {
  }

  lemma SealPartsIntact(kept: set<SealedLabel>, open: set<FlowId>, st: State, a: FlowId, b: FlowId, c: FlowId)
    requires Intact(kept, open + {a, c, b}, st) && a !in open && b !in open && c !in open && a != b && b != c && a != c
    ensures Intact(kept, open, SealParts(st, a, b, c))
  {
    hide Intact;
    SealIntact(kept, open + {a, c, b}, st, a);
    SealIntact(kept, open + {a, c, b} - {a}, Seal(st, a), b);
    SealIntact(kept, open + {a, c, b} - {a} - {b}, Seal(Seal(st, a), b), c);
    assert open + {a, c, b} - {a} - {b} - {c} == open;
  }

  lemma {:induction false} TryIntact(kept: set<SealedLabel>, s: Stmt, ctx: Context, st: State, open: set<FlowId>)
    requires s.Try? && Intact(kept, open, st) && Targets(ctx) <= open
    ensures Intact(kept, open, BindTry(s, ctx, st))
    decreases s, 2
  {
    hide Intact, BindBlock, BindGuarded, Targets, Resume, Extends, Valid, LeaveFinally;
    OpenBelow(kept, open, st);
    GuardedIntact(kept, s, ctx, st, open);
    var exit, returned, g := |st.graph|, |st.graph| + 1, BindGuarded(s, ctx, st);
    var all := open + {exit, returned, g.exceptions};
    if s.finalizer.NoBlock? {
      ResumeIntact(kept, all, g.state, exit);
      FewerOpen(kept, all - {exit}, open, Resume(g.state, exit));
    } else {
      var g', s2, s3 := TryStages(s, ctx, st);
      var sealed := SealParts(g.state, exit, g.exceptions, returned);
      SealPartsIntact(kept, open, g.state, exit, g.exceptions, returned);
      var node := FinallyLabel(Antecedents(g.state.graph, exit)
                               + (Antecedents(g.state.graph, g.exceptions) + Antecedents(g.state.graph, returned)));
      FinallyNodeIntact(kept, open, sealed, s2, node);
      BlockIntact(kept, s.finalizer.statements, ctx, s2, open);
      LeaveIntact(kept, open, ctx, s3, |g.state.graph|, Antecedents(g.state.graph, exit), Antecedents(g.state.graph, g.exceptions),
                  Antecedents(g.state.graph, returned));
    }
  }

  lemma FinallyNodeIntact(kept: set<SealedLabel>, open: set<FlowId>, a: State, b: State, n: FlowNode)
    requires Intact(kept, open, a) && Valid(b) && b == NewNode(a, n).(flow := |a.graph|)
    ensures Intact(kept, open, b)
  {
    NewIntact(kept, open, a, b, [n], {});
    assert open + {} == open;
  }

  lemma AddReducedIntact(kept: set<SealedLabel>, open: set<FlowId>, st: State, target: Option<FlowId>,
                         finallyLabel: FlowId, list: seq<FlowId>)
    requires Intact(kept, open, st) && Optional(target) <= open
    ensures Intact(kept, open, AddReduced(st, target, finallyLabel, list))
  {
    hide Intact, Grows, AddAntecedent;
    OpenBelow(kept, open, st);
    AddReducedGrows(st, target, finallyLabel, list);
    IntactStep(kept, open, Optional(target), st, AddReduced(st, target, finallyLabel, list));
  }

  lemma LeaveIntact(kept: set<SealedLabel>, open: set<FlowId>, ctx: Context, st: State, finallyLabel: FlowId,
                    normalList: seq<FlowId>,
                    exceptionList: seq<FlowId>, returnList: seq<FlowId>)
    requires Intact(kept, open, st) && Targets(ctx) <= open
    ensures Intact(kept, open, LeaveFinally(ctx, st, finallyLabel, normalList, exceptionList, returnList))
  {
    hide Intact, AddReduced, Grows, Targets, Dead;
    OwnTargets(ctx);
    var out := LeaveFinally(ctx, st, finallyLabel, normalList, exceptionList, returnList);
    if Dead(st) {
      DeadEnd(kept, open, st);
    } else {
      var s1 := AddReduced(st, ctx.returnTarget, finallyLabel, returnList);
      AddReducedIntact(kept, open, st, ctx.returnTarget, finallyLabel, returnList);
      var s2 := AddReduced(s1, ctx.exceptionTarget, finallyLabel, exceptionList);
      AddReducedIntact(kept, open, s1, ctx.exceptionTarget, finallyLabel, exceptionList);
      OpenBelow(kept, open, s2);
      if normalList != [] {
        var node := ReduceLabel(finallyLabel, normalList, s2.flow);
        AppendGrows(s2, out, [node]);
        IntactStep(kept, open, {}, s2, out);
      } else {
        DeadEnd(kept, open, s2);
      }
    }
  }

  lemma DeadEnd(kept: set<SealedLabel>, open: set<FlowId>, st: State)
    requires Intact(kept, open, st)
    ensures Intact(kept, open, st.(flow := UNREACHABLE_FLOW))
  {
  }

  // ----- switch -----

  lemma {:induction false} SwitchIntact(kept: set<SealedLabel>, s: Stmt, ctx: Context, st: State, open: set<FlowId>)
    requires s.Switch? && Intact(kept, open, st) && Targets(ctx) <= open
    ensures Intact(kept, open, BindSwitch(s, ctx, st))
    decreases s, 2
  {
    hide Intact, BindExpr, BindClauses, BindDeadClauses, AddAntecedent, Resume, Targets, Dead, Grows, HasDefault;
    OwnTargets(ctx);
    OpenBelow(kept, open, st);
    var post, all := |st.graph|, open + {|st.graph|};
    NewBranch(kept, open, st, st.effects);
    var s0 := NewNode(st, BranchLabel([]));
    assert s0 == s0.(effects := st.effects);
    ExprIntact(kept, s.expr, AsValue, ctx.exceptionTarget, s0, all);
    var s1 := BindExpr(s.expr, AsValue, ctx.exceptionTarget, s0);
    OpenBelow(kept, all, s1);
    var inner := Inner(ctx).(breakTarget := Some(post));
    BreakContextTargets(ctx, post);
    TwoAtLeast(kept, all, s1);
    if Dead(s1) {
      DeadClausesIntact(kept, s.clauses, s1, all);
      DeadClausesGrow(s.clauses, s1);
      GrowsExtends({}, s1, BindDeadClauses(s.clauses, s1));
    } else {
      ClausesIntact(kept, s, s.clauses, 0, s1.flow, UNREACHABLE_FLOW, inner, s1, all);
      ClausesGrow(s, s.clauses, 0, s1.flow, UNREACHABLE_FLOW, inner, s1);
      GrowsExtends(Targets(inner), s1, BindClauses(s, s.clauses, 0, s1.flow, UNREACHABLE_FLOW, inner, s1));
    }
    var s2 := if Dead(s1) then BindDeadClauses(s.clauses, s1)
              else BindClauses(s, s.clauses, 0, s1.flow, UNREACHABLE_FLOW, inner, s1);
    OpenBelow(kept, all, s2);
    JoinIntact(kept, all, s2, post, s2.flow);
    var s3 := Join(s2, post);
    if HasDefault(s.clauses) {
      ResumeIntact(kept, all, s3, post);
    } else {
      OpenBelow(kept, all, s3);
      var node := SwitchClause(s.id, 0, 0, s1.flow);
      var t := NewNode(s3, node);
      AppendGrows(s3, t, [node]);
      IntactStep(kept, all, {}, s3, t);
      JoinIntact(kept, all, t, post, |s3.graph|);
      ResumeIntact(kept, all, JoinFrom(t, post, |s3.graph|), post);
    }
    assert all - {post} == open;
  }

  lemma TwoAtLeast(kept: set<SealedLabel>, open: set<FlowId>, st: State)
    requires Intact(kept, open, st)
    ensures UNREACHABLE_FLOW < |st.graph|
  {
  }

  lemma {:induction false} ClausesIntact(kept: set<SealedLabel>, s: Stmt, rest: seq<Clause>, start: nat, pre: FlowId,
                                         fall: FlowId, ctx: Context,
                                         st: State, open: set<FlowId>)
    requires s.Switch? && |rest| <= |s.clauses| && Intact(kept, open, st) && Targets(ctx) <= open
    requires pre < |st.graph| && fall < |st.graph|
    ensures Intact(kept, open, BindClauses(s, rest, start, pre, fall, ctx, st))
    decreases rest, 1
  {
    hide Intact, BindClause, EnterGroup, Targets, Grows;
    if rest != [] {
      OpenBelow(kept, open, st);
      var empty := rest[0].body == [] && |rest| > 1;
      var end := |s.clauses| - |rest| + 1;
      var s1 := if !empty then EnterGroup(s, start, end, pre, fall, st)
                else if fall == UNREACHABLE_FLOW then st.(flow := pre) else st;
      if empty {
        MovedIntact(kept, open, st, s1);
      } else {
        EnterGroupIntact(kept, s, start, end, pre, fall, st, open);
        EnterGroupGrows(s, start, end, pre, fall, st);
        GrowsExtends({}, st, s1);
      }
      OpenBelow(kept, open, s1);
      var s2 := BindClause(rest[0], pre, ctx, s1);
      ClauseIntact(kept, rest[0], pre, ctx, s1, open);
      ClauseGrows(rest[0], pre, ctx, s1);
      GrowsExtends(Targets(ctx), s1, s2);
      OpenBelow(kept, open, s2);
      ClausesIntact(kept, s, rest[1..], if empty then start else end, pre, if empty then fall else s2.flow, ctx, s2, open);
    }
  }

  lemma EnterGroupIntact(kept: set<SealedLabel>, s: Stmt, start: nat, end: nat, pre: FlowId, fall: FlowId, st: State,
                         open: set<FlowId>)
    requires s.Switch? && Intact(kept, open, st) && pre < |st.graph| && fall < |st.graph|
    ensures Intact(kept, open, EnterGroup(s, start, end, pre, fall, st))
  {
    hide Intact, AddAntecedent, Resume, Grows, IsNarrowingSwitch;
    OpenBelow(kept, open, st);
    var preCase, all := |st.graph|, open + {|st.graph|};
    NewBranch(kept, open, st, st.effects);
    var s0 := NewNode(st, BranchLabel([]));
    assert s0 == s0.(effects := st.effects);
    OpenBelow(kept, all, s0);
    var node := SwitchClause(s.id, start, end, pre);
    var t := NewNode(s0, node);
    AppendGrows(s0, t, [node]);
    IntactStep(kept, all, {}, s0, t);
    JoinIntact(kept, all, t, preCase, |s0.graph|);
    SameLength(t, preCase, |s0.graph|);
    JoinIntact(kept, all, s0, preCase, pre);
    SameLength(s0, preCase, pre);
    var s1 := if IsNarrowingSwitch(s.expr) then JoinFrom(t, preCase, |s0.graph|) else JoinFrom(s0, preCase, pre);
    JoinIntact(kept, all, s1, preCase, fall);
    ResumeIntact(kept, all, JoinFrom(s1, preCase, fall), preCase);
    assert all - {preCase} == open;
  }

  lemma {:induction false} ClauseIntact(kept: set<SealedLabel>, c: Clause, pre: FlowId, ctx: Context, st: State,
                                        open: set<FlowId>)
    requires Intact(kept, open, st) && Targets(ctx) <= open && pre < |st.graph|
    ensures Intact(kept, open, BindClause(c, pre, ctx, st))
    decreases c, 1
  {
    hide Intact, BindExpr, BindEach, BindDeads, Targets, Dead, Grows;
    OwnTargets(ctx);
    if Dead(st) {
      DeadsIntact(kept, c.body, st, open);
    } else {
      var s1 := st;
      if c.test.Some? {
        var t0 := st.(flow := pre);
        OpenBelow(kept, open, st);
        MovedIntact(kept, open, st, t0);
        OpenBelow(kept, open, t0);
        var t1 := BindExpr(c.test.value, AsValue, ctx.exceptionTarget, t0);
        ExprIntact(kept, c.test.value, AsValue, ctx.exceptionTarget, t0, open);
        ExprGrows(c.test.value, AsValue, ctx.exceptionTarget, t0);
        GrowsExtends(ModeTargets(AsValue) + Optional(ctx.exceptionTarget), t0, t1);
        s1 := t1.(flow := st.flow);
        MovedIntact(kept, open, t1, s1);
      }
      EachIntact(kept, c.body, ctx, s1, open);
    }
  }

  // ----- unreachable code -----

  lemma {:induction false} DeadIntact(kept: set<SealedLabel>, s: Stmt, st: State, open: set<FlowId>)
    requires Intact(kept, open, st)
    ensures Intact(kept, open, BindDead(s, st))
    decreases s, 1
  {
    hide Intact, BindContainer, BindDeads, BindDeadClauses;
    var s0 := if IsReportable(s) && st.flow == UNREACHABLE_FLOW then st.(flow := REPORTED_UNREACHABLE_FLOW) else st;
    ReportedIntact(kept, s, st, open);
    match s
    case Function(_, _, _) => ContainerIntact(kept, s, s0, open);
    case Block(_, ss) => DeadsIntact(kept, ss, s0, open);
    case If(_, _, a, b) =>
      DeadIntact(kept, a, s0, open);
      if b.Some? {
        DeadIntact(kept, b.value, BindDead(a, s0), open);
      }
    case While(_, _, body) => DeadIntact(kept, body, s0, open);
    case Do(_, body, _) => DeadIntact(kept, body, s0, open);
    case For(_, _, _, _, body) => DeadIntact(kept, body, s0, open);
    case ForOf(_, _, _, body) => DeadIntact(kept, body, s0, open);
    case Labeled(_, _, body) => DeadIntact(kept, body, s0, open);
    case Switch(_, _, clauses) => DeadClausesIntact(kept, clauses, s0, open);
    case Try(_, b, h, f) =>
      DeadsIntact(kept, b, s0, open);
      var s1 := BindDeads(b, s0);
      if h.SomeBlock? {
        DeadsIntact(kept, h.statements, s1, open);
      }
      if f.SomeBlock? {
        DeadsIntact(kept, f.statements, if h.SomeBlock? then BindDeads(h.statements, s1) else s1, open);
      }
    case _ =>
  }

  lemma ReportedIntact(kept: set<SealedLabel>, s: Stmt, st: State, open: set<FlowId>)
    requires Intact(kept, open, st)
    ensures Intact(kept, open, if IsReportable(s) && st.flow == UNREACHABLE_FLOW then st.(flow := REPORTED_UNREACHABLE_FLOW) else st)
  {
  }

  lemma {:induction false} DeadsIntact(kept: set<SealedLabel>, ss: seq<Stmt>, st: State, open: set<FlowId>)
    requires Intact(kept, open, st)
    ensures Intact(kept, open, BindDeads(ss, st))
    decreases ss, 1
  {
    hide Intact, BindDead;
    if ss != [] {
      DeadIntact(kept, ss[0], st, open);
      DeadsIntact(kept, ss[1..], BindDead(ss[0], st), open);
    }
  }

  lemma {:induction false} DeadClausesIntact(kept: set<SealedLabel>, clauses: seq<Clause>, st: State, open: set<FlowId>)
    requires Intact(kept, open, st)
    ensures Intact(kept, open, BindDeadClauses(clauses, st))
    decreases clauses, 1
  {
    hide Intact, BindDeads;
    if clauses != [] {
      DeadsIntact(kept, clauses[0].body, st, open);
      DeadClausesIntact(kept, clauses[1..], BindDeads(clauses[0].body, st), open);
    }
  }

  // ----- functions -----

  /** The labels of a function are its own; those around it stay open. */
  lemma {:induction false} ContainerIntact(kept: set<SealedLabel>, s: Stmt, st: State, open: set<FlowId>)
    requires s.Function? && Intact(kept, open, st)
    ensures Intact(kept, open, BindContainer(s, st))
    decreases s, 0
  {
    hide Intact, BindBlock, LeaveContainer, Targets, Grows, Extends, Valid;
    OpenBelow(kept, open, st);
    var start, ctx := |st.graph|, ContainerContext(s, |st.graph|);
    var own := if s.isConstructor then {start + 1} else {};
    var s0, s1 := BodyStages(s, st);
    assert Intact(kept, open + own, s0) by {
      NewIntact(kept, open, st, s0, if s.isConstructor then [Start, BranchLabel([])] else [Start], own);
    }
    assert Targets(ctx) <= own by { FunctionTargets(s, start); }
    BlockIntact(kept, s.statements, ctx, s0, open + own);
    EarlierTrans(st, s0, s1);
    ExtendsLength(st.graph, s1.graph);
    LeaveContainerIntact(kept, s, st, s1, open);
  }

  lemma FunctionTargets(s: Stmt, start: FlowId)
    requires s.Function?
    ensures Targets(ContainerContext(s, start)) <= if s.isConstructor then {start + 1} else {}
  {
    assert LabelTargets([]) == {};
  }

  lemma LeaveContainerIntact(kept: set<SealedLabel>, s: Stmt, before: State, st: State, open: set<FlowId>)
    requires s.Function? && |before.graph| + 1 !in open && before.flow < |st.graph|
    requires Intact(kept, open + (if s.isConstructor then {|before.graph| + 1} else {}), st)
    ensures Intact(kept, open, LeaveContainer(s, before, st))
  {
    hide Intact, AddAntecedent, Resume, Dead;
    var target := |before.graph| + 1;
    var all := open + (if s.isConstructor then {target} else {});
    OpenBelow(kept, all, st);
    var s1 := if Dead(st) then st
              else st.(marks := st.marks + {HasImplicitReturn(s.id), EndFlow(s.id, st.flow)}
                                + (if st.explicitReturn then {HasExplicitReturn(s.id)} else {}));
    MovedIntact(kept, all, st, s1);
    if s.isConstructor {
      JoinIntact(kept, all, s1, target, s1.flow);
      SameLength(s1, target, s1.flow);
      var r := Resume(Join(s1, target), target);
      ResumeIntact(kept, all, Join(s1, target), target);
      ResumeLength(Join(s1, target), target);
      assert all - {target} == open;
      OpenBelow(kept, open, r);
      MovedIntact(kept, open, r, LeaveContainer(s, before, st));
    } else {
      assert all == open;
      MovedIntact(kept, open, s1, LeaveContainer(s, before, st));
    }
  }

  // ----- the theorems -----

  /** What a completed label stands for. */
  function Collapsed(k: SealedLabel): FlowId {
    if k.antecedents == [] then UNREACHABLE_FLOW
    else if |k.antecedents| == 1 then k.antecedents[0]
    else k.join
  }

  /** Going on from a label seals it, and the flow that goes on is what the sealed label stands for. */
  lemma ResumeSeals(st: State, join: FlowId)
    ensures exists k :: k in Resume(st, join).sealed && k.join == join && Resume(st, join).flow == Collapsed(k)
  {
    assert SealedLabel(join, Antecedents(st.graph, join)) in Resume(st, join).sealed;
  }

  /** Sealed labels, over whole bind runs: whatever functions are bound and in whatever order, a label that
      is completed, or whose list is copied, has for good the antecedents that it had then. */
  lemma SealedLabels(functions: seq<Stmt>, later: seq<Stmt>, st: State, k: SealedLabel)
    requires Valid(st) && SealsHold(st) && k in BindFunctions(functions, st).sealed
    ensures var final := BindFunctions(later, BindFunctions(functions, st));
            k in final.sealed && IsJoin(final.graph, k.join) && Antecedents(final.graph, k.join) == k.antecedents
  {
    hide BindFunctions, Valid, IsJoin;
    var out := BindFunctions(functions, st);
    FunctionsIntact({}, functions, st, {});
    FunctionsIntact({k}, later, out, {});
    assert k in {k};
  }

  lemma ContainerSeals(s: Stmt, st: State)
    requires s.Function? && Valid(st) && SealsHold(st)
    ensures SealsHold(BindContainer(s, st))
  {
    hide BindContainer, Valid, IsJoin;
    ContainerIntact({}, s, st, {});
  }

  lemma NothingSealed()
    ensures Valid(INITIAL) && SealsHold(INITIAL)
  {
  }

  /** The same while a function is being bound, after any statement: what has been sealed stays, as long as
      no target in force has been sealed, and none ever is. */
  lemma SealedInside(s: Stmt, ctx: Context, st: State)
    requires Intact(st.sealed, Targets(ctx), st)
    ensures Intact(st.sealed, Targets(ctx), BindStmt(s, ctx, st))
  {
    hide BindStmt, Targets, Intact;
    StmtIntact(st.sealed, s, ctx, st, Targets(ctx));
  }

  /** Collapsing a label when it was completed loses no walk through the finished graph and adds none. */
  lemma CollapseKeepsWalks(functions: seq<Stmt>, later: seq<Stmt>, st: State, k: SealedLabel, w: World, env: Env,
                           past: seq<Event>)
    requires Valid(st) && SealsHold(st) && k in BindFunctions(functions, st).sealed
    requires w.graph == BindFunctions(later, BindFunctions(functions, st)).graph
    ensures Matched(w, k.join, env, past) <==> Matched(w, Collapsed(k), env, past)
  {
    hide BindFunctions, Matched, IsJoin;
    SealedLabels(functions, later, st, k);
    FunctionsIntact({}, functions, st, {});
    FunctionsIntact({}, later, BindFunctions(functions, st), {});
    LabelKeepsWalks(w, k.join, env, past);
  }
}
