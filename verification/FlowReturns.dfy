/** When a function is marked to have an explicit return. */
module FlowReturns {
  import opened Wrappers
  import opened Syntax
  import opened FlowGraph
  import opened FlowBuilder
  import opened FlowGrowth
  import opened FlowMarks
  import opened FlowEvidence
  import Execution
  import FlowTheorems
  import opened FlowRegions
  import FlowExactness

  /** Of the nodes of a statement, exactly the return statements outside inner functions are in the set. */
  predicate ReturnsAre(ids: set<nat>, s: Stmt) {
    match s
    case Return(id, _) => id in ids
    case Function(_, _, _) => Ids(s) !! ids
    case Block(id, ss) => id !in ids && ReturnsAreIn(ids, ss)
    case If(id, _, a, b) => id !in ids && ReturnsAre(ids, a) && (b.Some? ==> ReturnsAre(ids, b.value))
    case Do(id, body, _) => id !in ids && ReturnsAre(ids, body)
    case While(id, _, body) => id !in ids && ReturnsAre(ids, body)
    case For(id, _, _, _, body) => id !in ids && ReturnsAre(ids, body)
    case ForOf(id, _, _, body) => id !in ids && ReturnsAre(ids, body)
    case Switch(id, _, clauses) => id !in ids && ReturnsAreInClauses(ids, clauses)
    case Labeled(id, _, body) => id !in ids && ReturnsAre(ids, body)
    case Try(id, b, h, f) =>
      && id !in ids && ReturnsAreIn(ids, b)
      && (h.SomeBlock? ==> ReturnsAreIn(ids, h.statements)) && (f.SomeBlock? ==> ReturnsAreIn(ids, f.statements))
    case _ => s.id !in ids
  }

  predicate ReturnsAreIn(ids: set<nat>, ss: seq<Stmt>) {
    ss == [] || (ReturnsAre(ids, ss[0]) && ReturnsAreIn(ids, ss[1..]))
  }

  predicate ReturnsAreInClauses(ids: set<nat>, clauses: seq<Clause>) {
    clauses == [] || (ReturnsAreIn(ids, clauses[0].body) && ReturnsAreInClauses(ids, clauses[1..]))
  }

  ghost predicate SomeRecorded(ids: set<nat>, st: State) {
    exists id, f: FlowId :: id in ids && FlowAt(id, f) in st.marks
  }

  /** The flag says whether a flow has been recorded on some return statement. */
  ghost predicate Noted(ids: set<nat>, st: State) {
    Valid(st) && (st.explicitReturn <==> SomeRecorded(ids, st))
  }

  lemma NotedSame(ids: set<nat>, a: State, b: State)
    requires Noted(ids, a) && Valid(b) && b.marks == a.marks && b.explicitReturn == a.explicitReturn
    ensures Noted(ids, b)
  {
  }

  lemma NotedValid(ids: set<nat>, st: State)
    requires Noted(ids, st)
    ensures Valid(st) && st.flow < |st.graph|
  {
  }

  lemma NotedRecord(ids: set<nat>, s: Stmt, st: State)
    requires Noted(ids, st) && s.id !in ids
    ensures Noted(ids, Record(s, st))
  {
  }

  /** A step that leaves marks and flag alone. */
  lemma NotedRest(ids: set<nat>, a: State, targets: set<FlowId>, b: State)
    requires Noted(ids, a) && Rest(targets, a, b) && b.marks == a.marks && b.explicitReturn == a.explicitReturn
    ensures Noted(ids, b)
  {
    hide Grows, LaterReduces;
  }

  lemma NotedResume(ids: set<nat>, st: State, join: FlowId, next: FlowId)
    requires Noted(ids, st)
    ensures Noted(ids, Resume(st, next)) && Noted(ids, Join(st, join)) && Noted(ids, Resume(Join(st, join), next))
  {
    hide Valid, Grows, AddAntecedent, FinishFlowLabel;
    NotedValid(ids, st);
    ResumeGrows(st, next);
    JoinFromGrows(st, join, st.flow);
    JoinResumeGrows(st, join, next);
  }

  lemma NotedLoopEnd(ids: set<nat>, st: State, pre: FlowId, top: FlowId, post: FlowId, out: State)
    requires Noted(ids, st) && top < |out.graph|
    requires out == Resume(JoinFrom(Join(st, pre), pre, top), post) || out == Resume(JoinFrom(st, pre, top), post)
    ensures Noted(ids, out)
  {
    hide Valid, Rest, FinishFlowLabel, Noted;
    NotedValid(ids, st);
    LoopEndRest(st, pre, top, post);
    NotedRest(ids, st, {pre}, out);
  }

  lemma LiveLonger(s: Stmt, ctx: Context, st: State)
    requires Valid(st)
    ensures |st.graph| <= |BindLive(s, ctx, st).graph| && st.flow < |st.graph|
  {
    hide Grows, BindLive;
    LiveGrows(s, ctx, st);
    GrowsExtends(Targets(ctx), st, BindLive(s, ctx, st));
  }

  lemma NotedLabels(ids: set<nat>, a: State, b: State, nodes: seq<FlowNode>)
    requires Noted(ids, a) && b == a.(graph := a.graph + nodes, flow := b.flow) && b.flow < |b.graph|
    requires forall n :: n in nodes ==> n.Start? || (IsLabel(n) && n.antecedents == [])
    ensures Noted(ids, b)
  {
    hide Valid, Rest, Noted;
    NotedValid(ids, a);
    LabelsRest(a, b, nodes);
    NotedRest(ids, a, {}, b);
  }

  lemma NotedExpr(ids: set<nat>, e: Expr, exc: Option<FlowId>, st: State)
    requires Noted(ids, st)
    ensures Noted(ids, BindExpr(e, AsValue, exc, st))
  {
    hide Valid, Grows, BindExpr;
    ExprGrows(e, AsValue, exc, st);
    ExprMarks(e, AsValue, exc, st);
    NotedSame(ids, st, BindExpr(e, AsValue, exc, st));
  }

  lemma NotedOptional(ids: set<nat>, e: Option<Expr>, exc: Option<FlowId>, st: State)
    requires Noted(ids, st)
    ensures Noted(ids, BindOptional(e, exc, st))
  {
    hide Noted, BindExpr;
    if e.Some? {
      NotedExpr(ids, e.value, exc, st);
    }
  }

  lemma NotedCondition(ids: set<nat>, e: Expr, t: FlowId, f: FlowId, exc: Option<FlowId>, st: State)
    requires Noted(ids, st)
    ensures Noted(ids, BindCondition(e, t, f, exc, st))
  {
    hide Valid, Grows, BindCondition;
    ConditionGrows(e, t, f, exc, st);
    ConditionMarks(e, t, f, exc, st);
    NotedSame(ids, st, BindCondition(e, t, f, exc, st));
  }

  lemma NotedOptionalCondition(ids: set<nat>, e: Option<Expr>, t: FlowId, f: FlowId, exc: Option<FlowId>, st: State)
    requires Noted(ids, st)
    ensures Noted(ids, BindOptionalCondition(e, t, f, exc, st))
  {
    hide Valid, Grows, BindOptionalCondition;
    OptionalConditionGrows(e, t, f, exc, st);
    OptionalConditionMarks(e, t, f, exc, st);
    NotedSame(ids, st, BindOptionalCondition(e, t, f, exc, st));
  }

  lemma NotedMutate(ids: set<nat>, st: State, exc: Option<FlowId>, x: string)
    requires Noted(ids, st)
    ensures Noted(ids, Mutate(st, exc, x))
  {
    hide Valid, Grows;
    MutateGrows(st, exc, x);
  }

  // ----- functions and unreachable code -----

  lemma NotedContainer(ids: set<nat>, s: Stmt, st: State)
    requires s.Function? && Noted(ids, st) && Ids(s) !! ids
    ensures Noted(ids, BindContainer(s, st))
  {
    hide Valid, Grows, BindContainer, Ids;
    var out := BindContainer(s, st);
    ContainerGrows(s, st);
    ContainerExplicit(s, st);
    GrowsExtends({}, st, out);
    forall id, f: FlowId | id in ids && FlowAt(id, f) in out.marks
      ensures FlowAt(id, f) in st.marks
    {
      ContainerMarks(id, s, st);
      assert FlowAt(id, f).id == id;
    }
  }

  lemma ContainerExplicit(s: Stmt, st: State)
    requires s.Function?
    ensures BindContainer(s, st).explicitReturn == st.explicitReturn
  {
    hide BindBlock, AddAntecedent, FinishFlowLabel;
  }

  lemma {:induction false} NotedDead(ids: set<nat>, s: Stmt, st: State)
    requires Noted(ids, st) && ReturnsAre(ids, s)
    ensures Noted(ids, BindDead(s, st))
    decreases s, 1
  {
    hide Noted, Valid, BindContainer, BindDeads, BindDeadClauses, Ids;
    var s0 := if IsReportable(s) && st.flow == UNREACHABLE_FLOW then st.(flow := REPORTED_UNREACHABLE_FLOW) else st;
    NotedReported(ids, s, st);
    match s
    case Function(_, _, _) => NotedContainer(ids, s, s0);
    case Block(_, ss) => NotedDeads(ids, ss, s0);
    case If(_, _, a, b) =>
      NotedDead(ids, a, s0);
      if b.Some? {
        NotedDead(ids, b.value, BindDead(a, s0));
      }
    case While(_, _, body) => NotedDead(ids, body, s0);
    case Do(_, body, _) => NotedDead(ids, body, s0);
    case For(_, _, _, _, body) => NotedDead(ids, body, s0);
    case ForOf(_, _, _, body) => NotedDead(ids, body, s0);
    case Labeled(_, _, body) => NotedDead(ids, body, s0);
    case Switch(_, _, clauses) => NotedDeadClauses(ids, clauses, s0);
    case Try(_, b, h, f) =>
      NotedDeads(ids, b, s0);
      var s1 := BindDeads(b, s0);
      if h.SomeBlock? {
        NotedDeads(ids, h.statements, s1);
      }
      if f.SomeBlock? {
        NotedDeads(ids, f.statements, if h.SomeBlock? then BindDeads(h.statements, s1) else s1);
      }
    case _ =>
  }

  lemma NotedReported(ids: set<nat>, s: Stmt, st: State)
    requires Noted(ids, st)
    ensures Noted(ids, if IsReportable(s) && st.flow == UNREACHABLE_FLOW then st.(flow := REPORTED_UNREACHABLE_FLOW) else st)
  {
  }

  lemma {:induction false} NotedDeads(ids: set<nat>, ss: seq<Stmt>, st: State)
    requires Noted(ids, st) && ReturnsAreIn(ids, ss)
    ensures Noted(ids, BindDeads(ss, st))
    decreases ss, 0
  {
    hide Noted, BindDead, ReturnsAre;
    if ss != [] {
      NotedDead(ids, ss[0], st);
      NotedDeads(ids, ss[1..], BindDead(ss[0], st));
    }
  }

  lemma {:induction false} NotedDeadClauses(ids: set<nat>, clauses: seq<Clause>, st: State)
    requires Noted(ids, st) && ReturnsAreInClauses(ids, clauses)
    ensures Noted(ids, BindDeadClauses(clauses, st))
    decreases clauses, 0
  {
    hide Noted, BindDeads, ReturnsAreIn;
    if clauses != [] {
      NotedDeads(ids, clauses[0].body, st);
      NotedDeadClauses(ids, clauses[1..], BindDeads(clauses[0].body, st));
    }
  }

  // ----- statements -----

  lemma {:induction false} NotedStmt(ids: set<nat>, s: Stmt, ctx: Context, st: State)
    requires Noted(ids, st) && ReturnsAre(ids, s)
    ensures Noted(ids, BindStmt(s, ctx, st))
    decreases s, 3
  {
    hide Noted, BindLive, BindContainer, BindDead, Ids;
    if s.Function? {
      NotedContainer(ids, s, st);
    } else if Dead(st) {
      NotedDead(ids, s, st);
    } else if s.Return? {
      NotedReturn(ids, s, ctx, st);
    } else {
      NotedRecord(ids, s, st);
      NotedLive(ids, s, ctx, Record(s, st));
    }
  }

  lemma NotedReturn(ids: set<nat>, s: Stmt, ctx: Context, st: State)
    requires s.Return? && Noted(ids, st) && s.id in ids
    ensures Noted(ids, BindLive(s, ctx, Record(s, st)))
  {
    hide Valid, Grows, BindOptional;
    var e := Record(s, st);
    NotedValid(ids, st);
    MoveGrows(st, e);
    LiveGrows(s, ctx, e);
    OptionalMarks(s.result, ctx.exceptionTarget, e);
    assert FlowAt(s.id, st.flow) in BindLive(s, ctx, e).marks;
  }

  lemma {:induction false} NotedLive(ids: set<nat>, s: Stmt, ctx: Context, st: State)
    requires Noted(ids, st) && ReturnsAre(ids, s) && !s.Return?
    ensures Noted(ids, BindLive(s, ctx, st))
    decreases s, 2
  {
    hide Noted, Valid, BindExpr, BindStmt, BindCondition, BindBlock, BindOptional, BindOptionalCondition, BindSwitch, BindTry,
         Mutate, Resume, AddAntecedent, LoopContext, LabelContext, ReturnsAreIn, ReturnsAreInClauses;
    NotedValid(ids, st);
    var exc := ctx.exceptionTarget;
    match s
    case Empty(_) =>
    case Function(_, _, _) =>
    case Block(_, ss) => NotedBlock(ids, ss, Inner(ctx), st);
    case Var(_, x, init) =>
      NotedOptional(ids, init, exc, st);
      NotedMutate(ids, BindOptional(init, exc, st), exc, x);
    case ExprStmt(_, e) =>
      NotedExpr(ids, e, exc, st);
      NotedCall(ids, BindExpr(e, AsValue, exc, st), e);
    case If(_, c, a, b) =>
      var thenLabel, elseLabel, post := |st.graph|, |st.graph| + 1, |st.graph| + 2;
      var s0 := NewLabels(st, BRANCHES);
      NotedLabels(ids, st, s0, BRANCHES);
      NotedCondition(ids, c, thenLabel, elseLabel, exc, s0);
      var s1 := BindCondition(c, thenLabel, elseLabel, exc, s0);
      NotedResume(ids, s1, post, thenLabel);
      NotedStmt(ids, a, Inner(ctx), Resume(s1, thenLabel));
      var t := BindStmt(a, Inner(ctx), Resume(s1, thenLabel));
      NotedResume(ids, t, post, elseLabel);
      var s3 := Resume(Join(t, post), elseLabel);
      if b.Some? {
        NotedStmt(ids, b.value, Inner(ctx), s3);
      }
      NotedResume(ids, if b.Some? then BindStmt(b.value, Inner(ctx), s3) else s3, post, post);
    case While(_, c, body) =>
      var pre, preBody, post := |st.graph|, |st.graph| + 1, |st.graph| + 2;
      var s0 := NewLabels(st, LOOP).(flow := pre);
      NotedLabels(ids, st, s0, LOOP);
      NotedCondition(ids, c, preBody, post, exc, s0);
      var s1 := BindCondition(c, preBody, post, exc, s0);
      NotedResume(ids, s1, post, preBody);
      NotedStmt(ids, body, LoopContext(ctx, post, pre), Resume(s1, preBody));
      LiveLonger(s, ctx, st);
      NotedLoopEnd(ids, BindStmt(body, LoopContext(ctx, post, pre), Resume(s1, preBody)), pre, st.flow, post, BindLive(s, ctx, st));
    case Do(_, body, c) =>
      var pre, test, post := |st.graph|, |st.graph| + 1, |st.graph| + 2;
      var s0 := NewLabels(st, LOOP).(flow := pre);
      NotedLabels(ids, st, s0, LOOP);
      var b := BindStmt(body, LoopContext(ctx, post, test), s0);
      NotedStmt(ids, body, LoopContext(ctx, post, test), s0);
      NotedResume(ids, b, test, test);
      var s1 := Resume(Join(b, test), test);
      NotedCondition(ids, c, pre, post, exc, s1);
      LiveLonger(s, ctx, st);
      NotedLoopEnd(ids, BindCondition(c, pre, post, exc, s1), pre, st.flow, post, BindLive(s, ctx, st));
    case For(_, _, _, _, _) => NotedFor(ids, s, ctx, st);
    case ForOf(_, _, _, _) => NotedForOf(ids, s, ctx, st);
    case Break(_, d) => NotedJump(ids, st, BreakTarget(ctx, d));
    case Continue(_, d) => NotedJump(ids, st, ContinueTarget(ctx, d));
    case Throw(_, e) =>
      NotedExpr(ids, e, exc, st);
      NotedEnd(ids, BindExpr(e, AsValue, exc, st));
    case Switch(_, _, _) => NotedSwitch(ids, s, ctx, st);
    case Labeled(_, name, body) =>
      var post, s0 := |st.graph|, NewNode(st, BranchLabel([]));
      NotedLabels(ids, st, s0, [BranchLabel([])]);
      NotedStmt(ids, body, LabelContext(ctx, name, post), s0);
      NotedResume(ids, BindStmt(body, LabelContext(ctx, name, post), s0), post, post);
    case Try(_, _, _, _) => NotedTry(ids, s, Inner(ctx), st);
  }

  lemma NotedCall(ids: set<nat>, st: State, e: Expr)
    requires Noted(ids, st)
    ensures Noted(ids, CallEffect(st, e))
  {
    hide Valid, Grows;
    NotedValid(ids, st);
    AppendGrows(st, CallEffect(st, e), [AssertionCall(e, st.flow)]);
  }

  lemma NotedEnd(ids: set<nat>, st: State)
    requires Noted(ids, st)
    ensures Noted(ids, Terminate(st))
  {
  }

  lemma NotedJump(ids: set<nat>, st: State, target: Option<FlowId>)
    requires Noted(ids, st)
    ensures Noted(ids, Jump(st, target))
  {
    hide Valid, Grows, AddAntecedent;
    JumpGrows(st, target);
  }

  lemma {:induction false} NotedFor(ids: set<nat>, s: Stmt, ctx: Context, st: State)
    requires s.For? && Noted(ids, st) && ReturnsAre(ids, s)
    ensures Noted(ids, BindLive(s, ctx, st))
    decreases s, 0
  {
    hide Noted, Valid, BindStmt, BindOptional, BindOptionalCondition, Resume, AddAntecedent, LoopContext, Rest;
    NotedValid(ids, st);
    var exc, pre, preBody, post := ctx.exceptionTarget, |st.graph|, |st.graph| + 1, |st.graph| + 2;
    var s0 := NewLabels(st, LOOP);
    NotedLabels(ids, st, s0, LOOP);
    NotedOptional(ids, s.init, exc, s0);
    var s1 := BindOptional(s.init, exc, s0);
    NotedValid(ids, s0);
    OptionalGrows(s.init, exc, s0);
    GrowsExtends(Optional(exc), s0, s1);
    var t0 := s1.(flow := pre);
    NotedLabels(ids, s1, t0, []);
    NotedOptionalCondition(ids, s.test, preBody, post, exc, t0);
    var s2 := BindOptionalCondition(s.test, preBody, post, exc, t0);
    NotedResume(ids, s2, post, preBody);
    var b := BindStmt(s.body, LoopContext(ctx, post, pre), Resume(s2, preBody));
    NotedStmt(ids, s.body, LoopContext(ctx, post, pre), Resume(s2, preBody));
    NotedOptional(ids, s.incr, exc, b);
    ForLonger(s, ctx, st, s1);
    NotedLoopEnd(ids, BindOptional(s.incr, exc, b), pre, s1.flow, post, BindLive(s, ctx, st));
  }

  lemma ForLonger(s: Stmt, ctx: Context, st: State, s1: State)
    requires s.For? && Valid(st) && s1 == BindOptional(s.init, ctx.exceptionTarget, NewLabels(st, LOOP))
    ensures s1.flow < |BindLive(s, ctx, st).graph|
  {
    hide Rest, Valid, BindStmt, BindOptional, BindOptionalCondition, Resume, LoopContext, Grows, Extends, AddAntecedent;
    var exc, pre, preBody, post := ctx.exceptionTarget, |st.graph|, |st.graph| + 1, |st.graph| + 2;
    Beginning(st);
    var s0 := NewLabels(st, LOOP);
    LabelsRest(st, s0, LOOP);
    RestLength({}, st, s0);
    OptionalRest(s.init, exc, s0);
    RestLength(Optional(exc), s0, s1);
    Beginning(s1);
    var t0 := s1.(flow := pre);
    MoveRest(s1, t0);
    RestLength({}, s1, t0);
    var s2 := BindOptionalCondition(s.test, preBody, post, exc, t0);
    OptionalConditionRest(s.test, preBody, post, exc, t0);
    RestLength({preBody, post} + Optional(exc), t0, s2);
    ResumeRest(s2, preBody);
    RestLength({}, s2, Resume(s2, preBody));
    var b := BindStmt(s.body, LoopContext(ctx, post, pre), Resume(s2, preBody));
    StmtRest(s.body, LoopContext(ctx, post, pre), Resume(s2, preBody));
    RestLength(Targets(LoopContext(ctx, post, pre)), Resume(s2, preBody), b);
    OptionalRest(s.incr, exc, b);
    RestLength(Optional(exc), b, BindOptional(s.incr, exc, b));
    LoopEndRest(BindOptional(s.incr, exc, b), pre, s1.flow, post);
    RestLength({pre}, BindOptional(s.incr, exc, b), BindLive(s, ctx, st));
  }

  lemma {:induction false} NotedForOf(ids: set<nat>, s: Stmt, ctx: Context, st: State)
    requires s.ForOf? && Noted(ids, st) && ReturnsAre(ids, s)
    ensures Noted(ids, BindLive(s, ctx, st))
    decreases s, 0
  {
    hide Noted, Valid, BindStmt, BindExpr, Resume, LoopContext, Rest, Mutate, AddAntecedent, Extends, Grows;
    NotedValid(ids, st);
    var exc, pre, post := ctx.exceptionTarget, |st.graph|, |st.graph| + 1;
    var s0 := NewLabels(st, [LoopLabel([]), BranchLabel([])]);
    NotedLabels(ids, st, s0, [LoopLabel([]), BranchLabel([])]);
    NotedExpr(ids, s.expr, exc, s0);
    var s1 := BindExpr(s.expr, AsValue, exc, s0);
    NotedValid(ids, s0);
    ExprRest(s.expr, exc, s0);
    RestLength(Optional(exc), s0, s1);
    NotedValid(ids, s1);
    var t0 := s1.(flow := pre);
    NotedLabels(ids, s1, t0, []);
    NotedResume(ids, t0, post, post);
    var t1 := Join(t0, post);
    NotedMutate(ids, t1, exc, s.target);
    var s2 := Mutate(t1, exc, s.target);
    NotedStmt(ids, s.body, LoopContext(ctx, post, pre), s2);
    ForOfLonger(s, ctx, st, s1);
    NotedLoopEnd(ids, BindStmt(s.body, LoopContext(ctx, post, pre), s2), pre, s1.flow, post, BindLive(s, ctx, st));
  }

  lemma ForOfLonger(s: Stmt, ctx: Context, st: State, s1: State)
    requires s.ForOf? && Valid(st)
    requires s1 == BindExpr(s.expr, AsValue, ctx.exceptionTarget, NewLabels(st, [LoopLabel([]), BranchLabel([])]))
    ensures s1.flow < |BindLive(s, ctx, st).graph|
  {
    hide Rest, Valid, BindStmt, BindExpr, LoopContext, Grows, Mutate, Resume, Extends, AddAntecedent;
    var exc, pre, post := ctx.exceptionTarget, |st.graph|, |st.graph| + 1;
    Beginning(st);
    var s0 := NewLabels(st, [LoopLabel([]), BranchLabel([])]);
    LabelsRest(st, s0, [LoopLabel([]), BranchLabel([])]);
    RestLength({}, st, s0);
    ExprRest(s.expr, exc, s0);
    RestLength(Optional(exc), s0, s1);
    Beginning(s1);
    var t0 := s1.(flow := pre);
    MoveRest(s1, t0);
    RestLength({}, s1, t0);
    JoinRest(t0, post, pre);
    RestLength({post}, t0, Join(t0, post));
    MutateRest(Join(t0, post), exc, s.target);
    var s2 := Mutate(Join(t0, post), exc, s.target);
    RestLength(Optional(exc), Join(t0, post), s2);
    StmtRest(s.body, LoopContext(ctx, post, pre), s2);
    var b := BindStmt(s.body, LoopContext(ctx, post, pre), s2);
    RestLength(Targets(LoopContext(ctx, post, pre)), s2, b);
    LoopEndRest(b, pre, s1.flow, post);
    RestLength({pre}, b, BindLive(s, ctx, st));
  }

  lemma {:induction false} NotedBlock(ids: set<nat>, ss: seq<Stmt>, ctx: Context, st: State)
    requires Noted(ids, st) && ReturnsAreIn(ids, ss)
    ensures Noted(ids, BindBlock(ss, ctx, st))
    decreases ss, 3
  {
    hide Noted, BindFunctions, BindOthers, BindDeads;
    if Dead(st) {
      NotedDeads(ids, ss, st);
    } else {
      NotedFunctions(ids, ss, st);
      NotedOthers(ids, ss, ctx, BindFunctions(ss, st));
    }
  }

  lemma {:induction false} NotedFunctions(ids: set<nat>, ss: seq<Stmt>, st: State)
    requires Noted(ids, st) && ReturnsAreIn(ids, ss)
    ensures Noted(ids, BindFunctions(ss, st))
    decreases ss
  {
    hide Noted, BindContainer, Ids;
    if ss != [] {
      if ss[0].Function? {
        NotedContainer(ids, ss[0], st);
      }
      NotedFunctions(ids, ss[1..], if ss[0].Function? then BindContainer(ss[0], st) else st);
    }
  }

  lemma {:induction false} NotedOthers(ids: set<nat>, ss: seq<Stmt>, ctx: Context, st: State)
    requires Noted(ids, st) && ReturnsAreIn(ids, ss)
    ensures Noted(ids, BindOthers(ss, ctx, st))
    decreases ss, 2
  {
    hide Noted, BindStmt, ReturnsAre;
    if ss != [] {
      if !ss[0].Function? {
        NotedStmt(ids, ss[0], ctx, st);
      }
      NotedOthers(ids, ss[1..], ctx, if ss[0].Function? then st else BindStmt(ss[0], ctx, st));
    }
  }

  lemma {:induction false} NotedEach(ids: set<nat>, ss: seq<Stmt>, ctx: Context, st: State)
    requires Noted(ids, st) && ReturnsAreIn(ids, ss)
    ensures Noted(ids, BindEach(ss, ctx, st))
    decreases ss, 2
  {
    hide Noted, BindStmt, ReturnsAre;
    if ss != [] {
      NotedStmt(ids, ss[0], ctx, st);
      NotedEach(ids, ss[1..], ctx, BindStmt(ss[0], ctx, st));
    }
  }

  // ----- try and switch -----

  lemma {:induction false} NotedTry(ids: set<nat>, s: Stmt, ctx: Context, st: State)
    requires s.Try? && Noted(ids, st) && ReturnsAre(ids, s)
    ensures Noted(ids, BindTry(s, ctx, st))
    decreases s, 1
  {
    hide Noted, Valid, Rest, Grows, BindBlock, BindGuarded, LeaveFinally, TryContext, Targets, Antecedents, ReturnsAreIn, Resume,
         Extends;
    NotedValid(ids, st);
    NotedGuarded(ids, s, ctx, st);
    var g := BindGuarded(s, ctx, st);
    if s.finalizer.NoBlock? {
      NotedResume(ids, g.state, |st.graph|, |st.graph|);
    } else {
      var g', f0, f1 := FinallyParts(s, ctx, st);
      NotedRest(ids, g.state, {}, f0);
      NotedBlock(ids, s.finalizer.statements, ctx, f0);
      NotedLeave(ids, s, ctx, st, f1);
    }
  }

  lemma NotedLeave(ids: set<nat>, s: Stmt, ctx: Context, st: State, f1: State)
    requires s.Try? && s.finalizer.SomeBlock? && Noted(ids, f1) && Grows(Targets(ctx), f1, BindTry(s, ctx, st))
    requires Valid(st)
    requires f1 == FinalizerEnd(s, ctx, st)
    ensures Noted(ids, BindTry(s, ctx, st))
  {
    hide Valid, BindBlock, BindGuarded, Targets, Antecedents, Grows, AddAntecedent;
    TryGrows(s, ctx, st);
  }

  lemma {:induction false} NotedGuarded(ids: set<nat>, s: Stmt, ctx: Context, st: State)
    requires s.Try? && Noted(ids, st) && ReturnsAre(ids, s)
    ensures Noted(ids, BindGuarded(s, ctx, st).state)
    decreases s, 0
  {
    hide Noted, Valid, BindBlock, TryContext, AddAntecedent, ReturnsAreIn, Resume;
    NotedValid(ids, st);
    var exit, returned, exceptions := |st.graph|, |st.graph| + 1, |st.graph| + 2;
    var g0 := NewLabels(st, BRANCHES);
    NotedLabels(ids, st, g0, BRANCHES);
    NotedResume(ids, g0, exceptions, exceptions);
    var b := BindBlock(s.block, TryContext(s, ctx, returned, exceptions), Join(g0, exceptions));
    NotedBlock(ids, s.block, TryContext(s, ctx, returned, exceptions), Join(g0, exceptions));
    NotedResume(ids, b, exit, exceptions);
    if s.handler.SomeBlock? {
      var c0 := Resume(Join(b, exit), exceptions);
      NotedValid(ids, c0);
      var n0 := NewNode(c0, BranchLabel([]));
      NotedLabels(ids, c0, n0, [BranchLabel([])]);
      NotedResume(ids, n0, |c0.graph|, exceptions);
      NotedBlock(ids, s.handler.statements, TryContext(s, ctx, returned, |c0.graph|), Join(n0, |c0.graph|));
      NotedResume(ids, BindBlock(s.handler.statements, TryContext(s, ctx, returned, |c0.graph|), Join(n0, |c0.graph|)), exit, exit);
    }
  }

  lemma {:induction false} NotedSwitch(ids: set<nat>, s: Stmt, ctx: Context, st: State)
    requires s.Switch? && Noted(ids, st) && ReturnsAre(ids, s)
    ensures Noted(ids, BindSwitch(s, ctx, st))
    decreases s, 1
  {
    hide Noted, Valid, Rest, BindExpr, BindClauses, BindDeadClauses, ReturnsAreInClauses, Dead, BindSwitch;
    NotedValid(ids, st);
    var s0 := NewNode(st, BranchLabel([]));
    NotedLabels(ids, st, s0, [BranchLabel([])]);
    NotedExpr(ids, s.expr, ctx.exceptionTarget, s0);
    var s1 := BindExpr(s.expr, AsValue, ctx.exceptionTarget, s0);
    NotedValid(ids, s1);
    if Dead(s1) {
      NotedDeadClauses(ids, s.clauses, s1);
    } else {
      NotedClauses(ids, s, s.clauses, 0, s1.flow, UNREACHABLE_FLOW, Inner(ctx).(breakTarget := Some(|st.graph|)), s1);
    }
    var t0, t1, s2 := SwitchParts(s, ctx, st);
    SwitchSame(s, ctx, st, t0, t1, s2);
    NotedRest(ids, s2, {|st.graph|}, BindSwitch(s, ctx, st));
  }

  lemma SwitchSame(s: Stmt, ctx: Context, st: State, s0: State, s1: State, s2: State)
    requires s.Switch? && SwitchStates(s, ctx, st, s0, s1, s2)
    ensures BindSwitch(s, ctx, st).marks == s2.marks && BindSwitch(s, ctx, st).explicitReturn == s2.explicitReturn
  {
    hide BindExpr, BindClauses, BindDeadClauses, AddAntecedent, FinishFlowLabel, Dead, HasDefault;
  }

  lemma {:induction false} NotedClauses(ids: set<nat>, s: Stmt, rest: seq<Clause>, start: nat, pre: FlowId, fall: FlowId,
                                        ctx: Context, st: State)
    requires s.Switch? && |rest| <= |s.clauses| && Noted(ids, st) && ReturnsAreInClauses(ids, rest)
    requires pre < |st.graph| && fall < |st.graph|
    ensures Noted(ids, BindClauses(s, rest, start, pre, fall, ctx, st))
    decreases rest, 1
  {
    hide Noted, Valid, Rest, Targets, BindClause, BeforeClause, ClauseEntry, BindEach, Enclosed, ReturnsAreIn;
    NotedValid(ids, st);
    if rest != [] {
      hide BindClauses;
      var r := BeforeClause(s, rest, start, pre, fall, st);
      var c := BindClause(rest[0], pre, ctx, r);
      ClausesAre(s, rest, start, pre, fall, ctx, st);
      BeforeClauseRest(s, rest, start, pre, fall, st);
      BeforeExplicit(s, rest, start, pre, fall, st);
      NotedRest(ids, st, {}, r);
      ClauseStep(s, rest, start, pre, fall, ctx, st);
      NotedClause(ids, rest[0], pre, ctx, r);
      NotedClauses(ids, s, rest[1..], if SharesNext(rest) then start else |s.clauses| - |rest| + 1, pre,
                   if SharesNext(rest) then fall else c.flow, ctx, c);
    }
  }

  lemma BeforeExplicit(s: Stmt, rest: seq<Clause>, start: nat, pre: FlowId, fall: FlowId, st: State)
    requires s.Switch? && 0 < |rest| <= |s.clauses|
    ensures BeforeClause(s, rest, start, pre, fall, st).explicitReturn == st.explicitReturn
  {
    hide AddAntecedent, FinishFlowLabel, IsNarrowingSwitch;
  }

  lemma {:induction false} NotedClause(ids: set<nat>, c: Clause, pre: FlowId, ctx: Context, st: State)
    requires Noted(ids, st) && ReturnsAreIn(ids, c.body) && pre < |st.graph|
    ensures Noted(ids, BindClause(c, pre, ctx, st))
    decreases c, 0
  {
    hide Noted, Valid, BindExpr, BindEach, BindDeads, Dead;
    NotedValid(ids, st);
    if Dead(st) {
      NotedDeads(ids, c.body, st);
    } else {
      var s1 := st;
      if c.test.Some? {
        var t0 := st.(flow := pre);
        NotedLabels(ids, st, t0, []);
        NotedExpr(ids, c.test.value, ctx.exceptionTarget, t0);
        var t1 := BindExpr(c.test.value, AsValue, ctx.exceptionTarget, t0);
        s1 := t1.(flow := st.flow);
        NotedValid(ids, t0);
        ExprLonger(c.test.value, ctx.exceptionTarget, t0);
        NotedLabels(ids, t1, s1, []);
      }
      NotedEach(ids, c.body, ctx, s1);
    }
  }

  lemma ExprLonger(e: Expr, exc: Option<FlowId>, st: State)
    requires Valid(st)
    ensures |st.graph| <= |BindExpr(e, AsValue, exc, st).graph|
  {
    hide Rest, Valid, BindExpr;
    ExprRest(e, exc, st);
    RestLength(Optional(exc), st, BindExpr(e, AsValue, exc, st));
  }

  // ----- the theorems -----

  /** A function is marked to have an explicit return exactly if its end is reachable and a flow is recorded on one of
      its return statements. */
  lemma ExplicitReturnMeaning(s: Stmt, ids: set<nat>, st: State)
    requires s.Function? && Valid(st) && ReturnsAreIn(ids, s.statements) && s.id !in IdsSeq(s.statements)
    requires !SomeRecorded(ids, st) && HasExplicitReturn(s.id) !in st.marks && HasImplicitReturn(s.id) !in st.marks
    ensures var out := BindContainer(s, st);
            HasExplicitReturn(s.id) in out.marks <==> HasImplicitReturn(s.id) in out.marks && SomeRecorded(ids, out)
  {
    hide Valid, BindBlock, Noted, ReturnsAreIn, IdsSeq, SomeRecorded;
    var s0 := NewLabels(st, if s.isConstructor then [Start, BranchLabel([])] else [Start]).(flow := |st.graph|, explicitReturn := false);
    var s1 := BindBlock(s.statements, ContainerContext(s, |st.graph|), s0);
    NotedStart(ids, st, s0, if s.isConstructor then [Start, BranchLabel([])] else [Start]);
    NotedBlock(ids, s.statements, ContainerContext(s, |st.graph|), s0);
    BlockMarks(s.id, s.statements, ContainerContext(s, |st.graph|), s0);
    LeaveMarked(s, ids, st, s1);
  }

  lemma NotedStart(ids: set<nat>, st: State, s0: State, nodes: seq<FlowNode>)
    requires Valid(st) && !SomeRecorded(ids, st) && nodes != []
    requires s0 == NewLabels(st, nodes).(flow := |st.graph|, explicitReturn := false)
    requires forall n :: n in nodes ==> n.Start? || (IsLabel(n) && n.antecedents == [])
    ensures Noted(ids, s0)
  {
    hide Grows;
    AppendGrows(st, s0, nodes);
  }

  lemma LeaveMarked(s: Stmt, ids: set<nat>, before: State, st: State)
    requires s.Function? && Noted(ids, st) && HasExplicitReturn(s.id) !in st.marks
    requires HasImplicitReturn(s.id) !in st.marks
    ensures var out := LeaveContainer(s, before, st);
            HasExplicitReturn(s.id) in out.marks <==> HasImplicitReturn(s.id) in out.marks && SomeRecorded(ids, out)
  {
    hide Valid, AddAntecedent, FinishFlowLabel;
    var out := LeaveContainer(s, before, st);
    assert forall id, f: FlowId :: FlowAt(id, f) in out.marks <==> FlowAt(id, f) in st.marks;
  }

  /** For a plain function: exactly if some run of it completes and some run reaches one of its return statements. */
  lemma ExplicitReturnExact(s: Stmt, ids: set<nat>, st: State)
    requires s.Function? && Valid(st) && ReturnsAreIn(ids, s.statements) && s.id !in IdsSeq(s.statements)
    requires !SomeRecorded(ids, st) && HasExplicitReturn(s.id) !in st.marks && HasImplicitReturn(s.id) !in st.marks
    requires FlowExactness.PlainFunction(s, s.id) && forall id :: id in ids ==> FlowExactness.PlainFunction(s, id)
    ensures HasExplicitReturn(s.id) in BindContainer(s, st).marks <==>
              (exists choices :: FlowTheorems.Body(s, choices).outcome.Completed?)
              && (exists choices, id :: id in ids && FlowTheorems.Body(s, choices).outcome == Execution.Reached(id))
  {
    hide Valid, BindContainer, ReturnsAreIn, IdsSeq, FlowExactness.PlainFunction, FlowTheorems.Body;
    ExplicitReturnMeaning(s, ids, st);
    FlowExactness.ImplicitReturnExact(s, st);
    forall id | id in ids
      ensures (exists f: FlowId :: FlowAt(id, f) in BindContainer(s, st).marks)
              <==> (exists choices :: FlowTheorems.Body(s, choices).outcome == Execution.Reached(id))
    {
      FlowExactness.ReachabilityExact(s, st, id);
    }
  }
}
