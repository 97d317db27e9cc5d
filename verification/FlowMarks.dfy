/** What binding records on the tree: only on the nodes that are bound, and nothing for expressions. */
module FlowMarks {
  import opened Wrappers
  import opened Syntax
  import opened FlowGraph
  import opened FlowBuilder

  /** The ids of a statement and of everything inside it, inner functions included. */
  function Ids(s: Stmt): set<nat> {
    {s.id} +
    (match s
     case Block(_, ss) => IdsSeq(ss)
     case If(_, _, a, b) => Ids(a) + (if b.Some? then Ids(b.value) else {})
     case Do(_, body, _) => Ids(body)
     case While(_, _, body) => Ids(body)
     case For(_, _, _, _, body) => Ids(body)
     case ForOf(_, _, _, body) => Ids(body)
     case Switch(_, _, clauses) => IdsClauses(clauses)
     case Labeled(_, _, body) => Ids(body)
     case Try(_, b, h, f) =>
       IdsSeq(b) + (if h.SomeBlock? then IdsSeq(h.statements) else {}) + (if f.SomeBlock? then IdsSeq(f.statements) else {})
     case Function(_, _, ss) => IdsSeq(ss)
     case _ => {})
  }

  function IdsSeq(ss: seq<Stmt>): set<nat> {
    if ss == [] then {} else Ids(ss[0]) + IdsSeq(ss[1..])
  }

  function IdsClauses(clauses: seq<Clause>): set<nat> {
    if clauses == [] then {} else IdsSeq(clauses[0].body) + IdsClauses(clauses[1..])
  }

  /** From `a` to `b` nothing has been recorded on the node with this id. */
  ghost predicate Unmarked(id: nat, a: State, b: State) {
    forall k :: k in b.marks && k.id == id ==> k in a.marks
  }

  // ----- expressions -----

  lemma {:induction false} ExprMarks(e: Expr, mode: Mode, exc: Option<FlowId>, st: State)
    ensures BindExpr(e, mode, exc, st).marks == st.marks
    ensures BindExpr(e, mode, exc, st).explicitReturn == st.explicitReturn
    decreases e, 1
  {
    hide AddAntecedent, FinishFlowLabel, CreateCondition;
    if !Dead(st) {
      match e
      case Paren(x) => ExprMarks(x, mode, exc, st);
      case Not(x) => ExprMarks(x, Negated(mode), exc, st);
      case Logical(_, _, _) => LogicalMarks(e, mode, exc, st);
      case LogicalAssign(_, _, _, _) => LogicalMarks(e, mode, exc, st);
      case Assign(_, _, r) => ExprMarks(r, AsValue, exc, st);
      case Conditional(_, _, _) => ConditionalMarks(e, exc, st);
      case Binary(_, l, r) =>
        ExprMarks(l, AsValue, exc, st);
        ExprMarks(r, AsValue, exc, BindExpr(l, AsValue, exc, st));
      case Call(_, _, x) => ExprMarks(x, AsValue, exc, st);
      case _ =>
    }
  }

  lemma {:induction false} ConditionMarks(e: Expr, t: FlowId, f: FlowId, exc: Option<FlowId>, st: State)
    ensures BindCondition(e, t, f, exc, st).marks == st.marks
    ensures BindCondition(e, t, f, exc, st).explicitReturn == st.explicitReturn
    decreases e, 2
  {
    hide AddAntecedent, CreateCondition, BindExpr;
    ExprMarks(e, AsBranch(t, f), exc, st);
  }

  lemma {:induction false} ConditionalMarks(e: Expr, exc: Option<FlowId>, st: State)
    requires e.Conditional?
    ensures BindConditional(e, exc, st).marks == st.marks
    ensures BindConditional(e, exc, st).explicitReturn == st.explicitReturn
    decreases e, 0
  {
    hide AddAntecedent, FinishFlowLabel, BindExpr, BindCondition;
    var s0 := NewLabels(st, BRANCHES).(effects := false);
    var s1 := BindCondition(e.condition, |st.graph|, |st.graph| + 1, exc, s0);
    ConditionMarks(e.condition, |st.graph|, |st.graph| + 1, exc, s0);
    ExprMarks(e.whenTrue, AsValue, exc, Resume(s1, |st.graph|));
    var s2 := Join(BindExpr(e.whenTrue, AsValue, exc, Resume(s1, |st.graph|)), |st.graph| + 2);
    ExprMarks(e.whenFalse, AsValue, exc, Resume(s2, |st.graph| + 1));
  }

  lemma {:induction false} LogicalMarks(e: Expr, mode: Mode, exc: Option<FlowId>, st: State)
    requires e.Logical? || e.LogicalAssign?
    ensures BindLogical(e, mode, exc, st).marks == st.marks
    ensures BindLogical(e, mode, exc, st).explicitReturn == st.explicitReturn
    decreases e, 0, 1
  {
    hide BindLogicalLike, FinishFlowLabel;
    match mode
    case AsBranch(t, f) => LogicalLikeMarks(e, t, f, exc, st);
    case AsValue => LogicalLikeMarks(e, |st.graph|, |st.graph|, exc, NewNode(st, BranchLabel([])).(effects := false));
  }

  lemma {:induction false} LogicalLikeMarks(e: Expr, t: FlowId, f: FlowId, exc: Option<FlowId>, st: State)
    requires e.Logical? || e.LogicalAssign?
    ensures BindLogicalLike(e, t, f, exc, st).marks == st.marks
    ensures BindLogicalLike(e, t, f, exc, st).explicitReturn == st.explicitReturn
    decreases e, 0, 0
  {
    hide AddAntecedent, FinishFlowLabel, BindExpr, BindCondition, CreateCondition;
    var pre, s0 := |st.graph|, NewNode(st, BranchLabel([]));
    var lt, lf := LeftTrue(e, t, pre), LeftFalse(e, f, pre);
    if e.Logical? {
      ConditionMarks(e.left, lt, lf, exc, s0);
      ConditionMarks(e.right, t, f, exc, Resume(BindCondition(e.left, lt, lf, exc, s0), pre));
    } else {
      var s1 := Resume(AddConditions(s0, lt, lf, Some(Target(e))), pre);
      assert BindLogicalLike(e, t, f, exc, st) == BindLogicalAssign(e, t, f, pre, exc, s0);
      assert BindLogicalAssign(e, t, f, pre, exc, s0) == BindAssignedRight(e, t, f, exc, s1);
      ExprMarks(e.right, AsValue, exc, s1);
    }
  }

  lemma OptionalMarks(e: Option<Expr>, exc: Option<FlowId>, st: State)
    ensures BindOptional(e, exc, st).marks == st.marks && BindOptional(e, exc, st).explicitReturn == st.explicitReturn
  {
    if e.Some? {
      ExprMarks(e.value, AsValue, exc, st);
    }
  }

  lemma OptionalConditionMarks(e: Option<Expr>, t: FlowId, f: FlowId, exc: Option<FlowId>, st: State)
    ensures BindOptionalCondition(e, t, f, exc, st).marks == st.marks
    ensures BindOptionalCondition(e, t, f, exc, st).explicitReturn == st.explicitReturn
  {
    if e.Some? {
      ConditionMarks(e.value, t, f, exc, st);
    }
  }

  // ----- statements -----

  lemma {:induction false} StmtMarks(id: nat, s: Stmt, ctx: Context, st: State)
    requires id !in Ids(s)
    ensures Unmarked(id, st, BindStmt(s, ctx, st))
    decreases s, 2
  {
    hide BindLive, BindContainer, BindDead, Ids;
    OwnId(s);
    if s.Function? {
      ContainerMarks(id, s, st);
    } else if Dead(st) {
      DeadMarks(id, s, st);
    } else {
      LiveMarks(id, s, ctx, Record(s, st));
    }
  }

  lemma OwnId(s: Stmt)
    ensures s.id in Ids(s)
  {
  }

  lemma {:induction false} LiveMarks(id: nat, s: Stmt, ctx: Context, st: State)
    requires id !in Ids(s)
    ensures Unmarked(id, st, BindLive(s, ctx, st))
    decreases s, 1
  {
    hide BindExpr, BindStmt, BindCondition, BindBlock, BindOptional, BindOptionalCondition, BindSwitch, BindTry, AddAntecedent,
         FinishFlowLabel, LoopContext, LabelContext;
    var exc := ctx.exceptionTarget;
    match s
    case Block(_, ss) => BlockMarks(id, ss, Inner(ctx), st);
    case Var(_, _, init) => OptionalMarks(init, exc, st);
    case ExprStmt(_, e) => ExprMarks(e, AsValue, exc, st);
    case If(_, c, a, b) =>
      var s0 := NewLabels(st, BRANCHES);
      ConditionMarks(c, |st.graph|, |st.graph| + 1, exc, s0);
      var r1 := Resume(BindCondition(c, |st.graph|, |st.graph| + 1, exc, s0), |st.graph|);
      StmtMarks(id, a, Inner(ctx), r1);
      if b.Some? {
        StmtMarks(id, b.value, Inner(ctx), Resume(Join(BindStmt(a, Inner(ctx), r1), |st.graph| + 2), |st.graph| + 1));
      }
    case While(_, c, body) =>
      var s0 := NewLabels(st, LOOP).(flow := |st.graph|);
      ConditionMarks(c, |st.graph| + 1, |st.graph| + 2, exc, s0);
      var r1 := Resume(BindCondition(c, |st.graph| + 1, |st.graph| + 2, exc, s0), |st.graph| + 1);
      StmtMarks(id, body, LoopContext(ctx, |st.graph| + 2, |st.graph|), r1);
    case Do(_, body, c) =>
      var s0, inner := NewLabels(st, LOOP).(flow := |st.graph|), LoopContext(ctx, |st.graph| + 2, |st.graph| + 1);
      StmtMarks(id, body, inner, s0);
      var r1 := Resume(Join(BindStmt(body, inner, s0), |st.graph| + 1), |st.graph| + 1);
      ConditionMarks(c, |st.graph|, |st.graph| + 2, exc, r1);
    case For(_, _, _, _, _) => ForMarks(id, s, ctx, st);
    case ForOf(_, x, e, body) =>
      var s0 := NewLabels(st, [LoopLabel([]), BranchLabel([])]);
      ExprMarks(e, AsValue, exc, s0);
      var s1 := BindExpr(e, AsValue, exc, s0);
      var s2 := Mutate(Join(s1.(flow := |st.graph|), |st.graph| + 1), exc, x);
      StmtMarks(id, body, LoopContext(ctx, |st.graph| + 1, |st.graph|), s2);
    case Return(_, e) => OptionalMarks(e, exc, st);
    case Throw(_, e) => ExprMarks(e, AsValue, exc, st);
    case Switch(_, _, _) => SwitchMarks(id, s, ctx, st);
    case Labeled(_, name, body) => StmtMarks(id, body, LabelContext(ctx, name, |st.graph|), NewNode(st, BranchLabel([])));
    case Try(_, _, _, _) => TryMarks(id, s, Inner(ctx), st);
    case _ =>
  }

  lemma {:induction false} ForMarks(id: nat, s: Stmt, ctx: Context, st: State)
    requires s.For? && id !in Ids(s)
    ensures Unmarked(id, st, BindLive(s, ctx, st))
    decreases s, 0
  {
    hide BindStmt, BindOptional, BindOptionalCondition, AddAntecedent, FinishFlowLabel, LoopContext;
    var exc, pre, preBody, post := ctx.exceptionTarget, |st.graph|, |st.graph| + 1, |st.graph| + 2;
    var s0 := NewLabels(st, LOOP);
    OptionalMarks(s.init, exc, s0);
    var s1 := BindOptional(s.init, exc, s0);
    OptionalConditionMarks(s.test, preBody, post, exc, s1.(flow := pre));
    var s2 := BindOptionalCondition(s.test, preBody, post, exc, s1.(flow := pre));
    StmtMarks(id, s.body, LoopContext(ctx, post, pre), Resume(s2, preBody));
    OptionalMarks(s.incr, exc, BindStmt(s.body, LoopContext(ctx, post, pre), Resume(s2, preBody)));
  }

  lemma {:induction false} BlockMarks(id: nat, ss: seq<Stmt>, ctx: Context, st: State)
    requires id !in IdsSeq(ss)
    ensures Unmarked(id, st, BindBlock(ss, ctx, st))
    decreases ss, 1
  {
    hide BindFunctions, BindOthers, BindDeads;
    if Dead(st) {
      DeadsMarks(id, ss, st);
    } else {
      FunctionsMarks(id, ss, st);
      OthersMarks(id, ss, ctx, BindFunctions(ss, st));
    }
  }

  lemma {:induction false} FunctionsMarks(id: nat, ss: seq<Stmt>, st: State)
    requires id !in IdsSeq(ss)
    ensures Unmarked(id, st, BindFunctions(ss, st))
    decreases ss, 0
  {
    hide BindContainer, Ids;
    if ss != [] {
      if ss[0].Function? {
        ContainerMarks(id, ss[0], st);
      }
      FunctionsMarks(id, ss[1..], if ss[0].Function? then BindContainer(ss[0], st) else st);
    }
  }

  lemma {:induction false} OthersMarks(id: nat, ss: seq<Stmt>, ctx: Context, st: State)
    requires id !in IdsSeq(ss)
    ensures Unmarked(id, st, BindOthers(ss, ctx, st))
    decreases ss, 0
  {
    hide BindStmt, Ids;
    if ss != [] {
      if !ss[0].Function? {
        StmtMarks(id, ss[0], ctx, st);
      }
      OthersMarks(id, ss[1..], ctx, if ss[0].Function? then st else BindStmt(ss[0], ctx, st));
    }
  }

  lemma {:induction false} EachMarks(id: nat, ss: seq<Stmt>, ctx: Context, st: State)
    requires id !in IdsSeq(ss)
    ensures Unmarked(id, st, BindEach(ss, ctx, st))
    decreases ss, 0
  {
    hide BindStmt, Ids;
    if ss != [] {
      StmtMarks(id, ss[0], ctx, st);
      EachMarks(id, ss[1..], ctx, BindStmt(ss[0], ctx, st));
    }
  }

  lemma {:induction false} TryMarks(id: nat, s: Stmt, ctx: Context, st: State)
    requires s.Try? && id !in Ids(s)
    ensures Unmarked(id, st, BindTry(s, ctx, st))
    decreases s, 0
  {
    hide BindBlock, AddAntecedent, FinishFlowLabel, TryContext, LeaveFinally, Antecedents;
    var returned, exceptions := |st.graph| + 1, |st.graph| + 2;
    var e0 := Join(NewLabels(st, BRANCHES), exceptions);
    BlockMarks(id, s.block, TryContext(s, ctx, returned, exceptions), e0);
    var s1, g := BindTryBlock(s, ctx, st), BindGuarded(s, ctx, st);
    if s.handler.SomeBlock? {
      var c0 := Resume(s1, exceptions);
      var c1 := Join(NewNode(c0, BranchLabel([])), |c0.graph|);
      BlockMarks(id, s.handler.statements, TryContext(s, ctx, returned, |c0.graph|), c1);
    }
    if s.finalizer.SomeBlock? {
      FinallyMarks(id, s, ctx, st, g);
    }
  }

  lemma {:induction false} FinallyMarks(id: nat, s: Stmt, ctx: Context, st: State, g: Guarded)
    requires s.Try? && s.finalizer.SomeBlock? && id !in IdsSeq(s.finalizer.statements) && g == BindGuarded(s, ctx, st)
    ensures Unmarked(id, g.state, BindTry(s, ctx, st))
    decreases s.finalizer.statements, 2
  {
    hide BindBlock, LeaveFinally, BindGuarded, Antecedents;
    var normal, exceptional, returning :=
      Antecedents(g.state.graph, |st.graph|), Antecedents(g.state.graph, g.exceptions), Antecedents(g.state.graph, |st.graph| + 1);
    var s2 := NewNode(SealParts(g.state, |st.graph|, g.exceptions, |st.graph| + 1), FinallyLabel(normal + (exceptional + returning)))
              .(flow := |g.state.graph|);
    BlockMarks(id, s.finalizer.statements, ctx, s2);
    LeaveMarks(ctx, BindBlock(s.finalizer.statements, ctx, s2), |g.state.graph|, normal, exceptional, returning);
  }

  lemma LeaveMarks(ctx: Context, st: State, finallyLabel: FlowId, normalList: seq<FlowId>, exceptionList: seq<FlowId>,
                   returnList: seq<FlowId>)
    ensures LeaveFinally(ctx, st, finallyLabel, normalList, exceptionList, returnList).marks == st.marks
  {
    hide AddAntecedent;
  }

  lemma {:induction false} SwitchMarks(id: nat, s: Stmt, ctx: Context, st: State)
    requires s.Switch? && id !in Ids(s)
    ensures Unmarked(id, st, BindSwitch(s, ctx, st))
    decreases s, 0
  {
    hide BindExpr, BindClauses, BindDeadClauses, AddAntecedent, FinishFlowLabel, HasDefault;
    var s0 := NewNode(st, BranchLabel([]));
    ExprMarks(s.expr, AsValue, ctx.exceptionTarget, s0);
    var s1 := BindExpr(s.expr, AsValue, ctx.exceptionTarget, s0);
    if Dead(s1) {
      DeadClausesMarks(id, s.clauses, s1);
    } else {
      ClausesMarks(id, s, s.clauses, 0, s1.flow, UNREACHABLE_FLOW, Inner(ctx).(breakTarget := Some(|st.graph|)), s1);
    }
  }

  lemma {:induction false} ClausesMarks(id: nat, s: Stmt, rest: seq<Clause>, start: nat, pre: FlowId, fall: FlowId,
                                        ctx: Context,
                                        st: State)
    requires s.Switch? && |rest| <= |s.clauses| && id !in IdsClauses(rest)
    ensures Unmarked(id, st, BindClauses(s, rest, start, pre, fall, ctx, st))
    decreases rest, 1
  {
    hide BindClause, EnterGroup;
    if rest != [] {
      var empty := rest[0].body == [] && |rest| > 1;
      var end := |s.clauses| - |rest| + 1;
      var s1 := if !empty then EnterGroup(s, start, end, pre, fall, st)
                else if fall == UNREACHABLE_FLOW then st.(flow := pre) else st;
      assert s1.marks == st.marks by { EnterMarks(s, start, end, pre, fall, st); }
      ClauseMarks(id, rest[0], pre, ctx, s1);
      var s2 := BindClause(rest[0], pre, ctx, s1);
      ClausesMarks(id, s, rest[1..], if empty then start else end, pre, if empty then fall else s2.flow, ctx, s2);
    }
  }

  lemma EnterMarks(s: Stmt, start: nat, end: nat, pre: FlowId, fall: FlowId, st: State)
    requires s.Switch?
    ensures EnterGroup(s, start, end, pre, fall, st).marks == st.marks
  {
  }

  lemma {:induction false} ClauseMarks(id: nat, c: Clause, pre: FlowId, ctx: Context, st: State)
    requires id !in IdsSeq(c.body)
    ensures Unmarked(id, st, BindClause(c, pre, ctx, st))
    decreases c, 0
  {
    hide BindExpr, BindEach, BindDeads;
    var exc := ctx.exceptionTarget;
    if Dead(st) {
      DeadsMarks(id, c.body, st);
    } else {
      var s1 := st;
      if c.test.Some? {
        ExprMarks(c.test.value, AsValue, exc, st.(flow := pre));
        s1 := BindExpr(c.test.value, AsValue, exc, st.(flow := pre)).(flow := st.flow);
      }
      EachMarks(id, c.body, ctx, s1);
    }
  }

  // ----- unreachable code -----

  lemma {:induction false} DeadMarks(id: nat, s: Stmt, st: State)
    requires id !in Ids(s)
    ensures Unmarked(id, st, BindDead(s, st))
    decreases s, 1
  {
    hide BindContainer, BindDeads, BindDeadClauses;
    var s0 := if IsReportable(s) && st.flow == UNREACHABLE_FLOW then st.(flow := REPORTED_UNREACHABLE_FLOW) else st;
    match s
    case Function(_, _, _) => ContainerMarks(id, s, s0);
    case Block(_, ss) => DeadsMarks(id, ss, s0);
    case If(_, _, a, b) =>
      DeadMarks(id, a, s0);
      if b.Some? {
        DeadMarks(id, b.value, BindDead(a, s0));
      }
    case While(_, _, body) => DeadMarks(id, body, s0);
    case Do(_, body, _) => DeadMarks(id, body, s0);
    case For(_, _, _, _, body) => DeadMarks(id, body, s0);
    case ForOf(_, _, _, body) => DeadMarks(id, body, s0);
    case Labeled(_, _, body) => DeadMarks(id, body, s0);
    case Switch(_, _, clauses) => DeadClausesMarks(id, clauses, s0);
    case Try(_, b, h, f) =>
      DeadsMarks(id, b, s0);
      var s1 := BindDeads(b, s0);
      if h.SomeBlock? {
        DeadsMarks(id, h.statements, s1);
      }
      if f.SomeBlock? {
        DeadsMarks(id, f.statements, if h.SomeBlock? then BindDeads(h.statements, s1) else s1);
      }
    case _ =>
  }

  lemma {:induction false} DeadsMarks(id: nat, ss: seq<Stmt>, st: State)
    requires id !in IdsSeq(ss)
    ensures Unmarked(id, st, BindDeads(ss, st))
    decreases ss, 0
  {
    hide BindDead, Ids;
    if ss != [] {
      DeadMarks(id, ss[0], st);
      DeadsMarks(id, ss[1..], BindDead(ss[0], st));
    }
  }

  lemma {:induction false} DeadClausesMarks(id: nat, clauses: seq<Clause>, st: State)
    requires id !in IdsClauses(clauses)
    ensures Unmarked(id, st, BindDeadClauses(clauses, st))
    decreases clauses, 0
  {
    hide BindDeads, IdsSeq;
    if clauses != [] {
      DeadsMarks(id, clauses[0].body, st);
      DeadClausesMarks(id, clauses[1..], BindDeads(clauses[0].body, st));
    }
  }

  // ----- functions -----

  lemma {:induction false} ContainerMarks(id: nat, s: Stmt, st: State)
    requires s.Function? && id !in Ids(s)
    ensures Unmarked(id, st, BindContainer(s, st))
    decreases s, 0
  {
    hide BindBlock, AddAntecedent, FinishFlowLabel;
    var start := |st.graph|;
    var s0 := NewLabels(st, if s.isConstructor then [Start, BranchLabel([])] else [Start])
              .(flow := start, explicitReturn := false);
    BlockMarks(id, s.statements, ContainerContext(s, start), s0);
  }

  // ----- what is reported -----

  /** Whether there is something to report in unreachable code: any statement but empty ones, blocks and functions. */
  predicate HasReportable(s: Stmt) {
    match s
    case Block(_, ss) => HasReportableIn(ss)
    case _ => IsReportable(s)
  }

  predicate HasReportableIn(ss: seq<Stmt>) {
    ss != [] && (HasReportable(ss[0]) || HasReportableIn(ss[1..]))
  }

  /** Where unreachable code leads: it stays reported, and is reported if there is something to report. */
  function Reporting(reportable: bool, flow: FlowId): FlowId {
    if reportable && flow == UNREACHABLE_FLOW then REPORTED_UNREACHABLE_FLOW else flow
  }

  lemma {:induction false} DeadReports(s: Stmt, st: State)
    requires st.flow < 2
    ensures BindDead(s, st).flow == Reporting(HasReportable(s), st.flow)
    decreases s, 1
  {
    hide BindContainer, BindDeads, BindDeadClauses, HasReportableIn;
    var s0 := st.(flow := Reporting(IsReportable(s), st.flow));
    match s
    case Function(_, _, _) => ContainerFlow(s, s0);
    case Block(_, ss) => DeadsReport(ss, s0);
    case If(_, _, a, b) =>
      DeadReports(a, s0);
      if b.Some? {
        DeadReports(b.value, BindDead(a, s0));
      }
    case While(_, _, body) => DeadReports(body, s0);
    case Do(_, body, _) => DeadReports(body, s0);
    case For(_, _, _, _, body) => DeadReports(body, s0);
    case ForOf(_, _, _, body) => DeadReports(body, s0);
    case Labeled(_, _, body) => DeadReports(body, s0);
    case Switch(_, _, clauses) => DeadClausesReport(clauses, s0);
    case Try(_, b, h, f) =>
      DeadsReport(b, s0);
      var s1 := BindDeads(b, s0);
      if h.SomeBlock? {
        DeadsReport(h.statements, s1);
      }
      if f.SomeBlock? {
        DeadsReport(f.statements, if h.SomeBlock? then BindDeads(h.statements, s1) else s1);
      }
    case _ =>
  }

  lemma ContainerFlow(s: Stmt, st: State)
    requires s.Function?
    ensures BindContainer(s, st).flow == st.flow
  {
    hide BindBlock, AddAntecedent, FinishFlowLabel;
  }

  lemma {:induction false} DeadsReport(ss: seq<Stmt>, st: State)
    requires st.flow < 2
    ensures BindDeads(ss, st).flow == Reporting(HasReportableIn(ss), st.flow)
    decreases ss, 0
  {
    hide BindDead, HasReportable;
    if ss != [] {
      DeadReports(ss[0], st);
      DeadsReport(ss[1..], BindDead(ss[0], st));
    }
  }

  lemma {:induction false} DeadClausesReport(clauses: seq<Clause>, st: State)
    requires st.flow == REPORTED_UNREACHABLE_FLOW
    ensures BindDeadClauses(clauses, st).flow == st.flow
    decreases clauses, 0
  {
    hide BindDeads;
    if clauses != [] {
      DeadsReport(clauses[0].body, st);
      DeadClausesReport(clauses[1..], BindDeads(clauses[0].body, st));
    }
  }
}
