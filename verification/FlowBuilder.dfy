/** What binding a tree does to the flow graph, as functions from builder state to builder state. The
    targets in force are arguments here; class Binder keeps them in fields that it saves, overwrites
    and restores. */
module FlowBuilder {
  import opened Wrappers
  import opened Syntax
  import opened FlowGraph

  datatype ActiveLabel = ActiveLabel(name: string, breakTarget: FlowId, continueTarget: Option<FlowId>)

  /** The jump targets in force. `wrapping` counts the innermost active labels that directly wrap the
      statement about to be bound. */
  datatype Context = Context(
    breakTarget: Option<FlowId>,
    continueTarget: Option<FlowId>,
    returnTarget: Option<FlowId>,
    exceptionTarget: Option<FlowId>,
    labels: seq<ActiveLabel>,
    wrapping: nat)

  /** How an expression is bound: for its value, or as a condition that branches to two labels. */
  datatype Mode = AsValue | AsBranch(trueTarget: FlowId, falseTarget: FlowId)

  /** What binding records on the syntax tree. */
  datatype Mark =
    | FlowAt(id: nat, flow: FlowId)
    | HasImplicitReturn(id: nat)
    | HasExplicitReturn(id: nat)
    | EndFlow(id: nat, flow: FlowId)
    | ReturnFlow(id: nat, flow: FlowId)

  datatype SealedLabel = SealedLabel(join: FlowId, antecedents: seq<FlowId>)

  datatype State = State(
    graph: Graph,
    flow: FlowId,           // currentFlow
    effects: bool,          // hasFlowEffects
    explicitReturn: bool,   // hasExplicitReturn
    marks: set<Mark>,
    /** The labels that have been completed or copied into the lists of a finally block, with the
        antecedents they had then. */
    sealed: set<SealedLabel>)

  // ----- single steps -----

  predicate Dead(st: State) {
    IsUnreachable(st.graph, st.flow)
  }

  function NewNode(st: State, n: FlowNode): State {
    st.(graph := st.graph + [n])
  }

  function NewLabels(st: State, labels: seq<FlowNode>): State {
    st.(graph := st.graph + labels)
  }

  /** Adds the current flow to a label. */
  function Join(st: State, join: FlowId): State {
    st.(graph := AddAntecedent(st.graph, join, st.flow))
  }

  function JoinFrom(st: State, join: FlowId, from: FlowId): State {
    st.(graph := AddAntecedent(st.graph, join, from))
  }

  /** Continues from a completed label. */
  function Resume(st: State, join: FlowId): State {
    Seal(st, join).(flow := FinishFlowLabel(st.graph, join))
  }

  function Seal(st: State, join: FlowId): State {
    st.(sealed := st.sealed + {SealedLabel(join, Antecedents(st.graph, join))})
  }

  /** createFlowMutation, made the current flow. */
  function Mutate(st: State, exceptionTarget: Option<FlowId>, target: string): State {
    var f := |st.graph|;
    var g := st.graph + [Assignment(target, st.flow)];
    st.(graph := if exceptionTarget.Some? then AddAntecedent(g, exceptionTarget.value, f) else g,
        flow := f,
        effects := true)
  }

  /** createFlowCall, made the current flow. */
  function CallEffect(st: State, e: Expr): State {
    st.(graph := st.graph + [AssertionCall(e, st.flow)], flow := |st.graph|, effects := true)
  }

  /** createFlowCondition: the node for `e` having the given truth value, or a shortcut for it. */
  function CreateCondition(g: Graph, sense: bool, e: Option<Expr>, flow: FlowId): (Graph, FlowId) {
    if IsUnreachable(g, flow) then (g, flow)
    else if e.None? then (g, if sense then flow else UNREACHABLE_FLOW)
    else if (e.value.TrueLiteral? && !sense) || (e.value.FalseLiteral? && sense) then (g, UNREACHABLE_FLOW)
    else if !IsNarrowing(e.value) then (g, flow)
    else (g + [Condition(sense, e.value, flow)], |g|)
  }

  function AddCondition(st: State, join: FlowId, sense: bool, e: Option<Expr>): State {
    var (g, f) := CreateCondition(st.graph, sense, e, st.flow);
    st.(graph := AddAntecedent(g, join, f))
  }

  /** Both outcomes of `e`, from the current flow. */
  function AddConditions(st: State, trueTarget: FlowId, falseTarget: FlowId, e: Option<Expr>): State {
    AddCondition(AddCondition(st, trueTarget, true, e), falseTarget, false, e)
  }

  function Terminate(st: State): State {
    st.(flow := UNREACHABLE_FLOW, effects := true)
  }

  const BRANCHES := [BranchLabel([]), BranchLabel([]), BranchLabel([])]
  const LOOP := [LoopLabel([]), BranchLabel([]), BranchLabel([])]

  // ----- expressions -----

  function Negated(mode: Mode): Mode {
    match mode
    case AsValue => AsValue
    case AsBranch(t, f) => AsBranch(f, t)
  }

  function BindExpr(e: Expr, mode: Mode, exceptionTarget: Option<FlowId>, st: State): State
    decreases e, 1
  {
    if Dead(st) then st
    else
      match e
      case Ident(_, _) => st
      case Opaque(_) => st
      case TrueLiteral => st
      case FalseLiteral => st
      case Paren(x) => BindExpr(x, mode, exceptionTarget, st)
      case Not(x) => BindExpr(x, Negated(mode), exceptionTarget, st)
      case Logical(_, _, _) => BindLogical(e, mode, exceptionTarget, st)
      case LogicalAssign(_, _, _, _) => BindLogical(e, mode, exceptionTarget, st)
      case Assign(x, _, r) => Mutate(BindExpr(r, AsValue, exceptionTarget, st), exceptionTarget, x)
      case Conditional(_, _, _) => BindConditional(e, exceptionTarget, st)
      case Binary(_, l, r) => BindExpr(r, AsValue, exceptionTarget, BindExpr(l, AsValue, exceptionTarget, st))
      case Call(_, _, a) => BindExpr(a, AsValue, exceptionTarget, st)
  }

  function BindConditional(e: Expr, exceptionTarget: Option<FlowId>, st: State): State
    requires e.Conditional?
    decreases e, 0
  {
    var whenTrue, whenFalse, post := |st.graph|, |st.graph| + 1, |st.graph| + 2;
    var s0 := NewLabels(st, BRANCHES).(effects := false);
    var s1 := BindCondition(e.condition, whenTrue, whenFalse, exceptionTarget, s0);
    var s2 := Join(BindExpr(e.whenTrue, AsValue, exceptionTarget, Resume(s1, whenTrue)), post);
    var s3 := Join(BindExpr(e.whenFalse, AsValue, exceptionTarget, Resume(s2, whenFalse)), post);
    WithoutEffects(st, s3, post)
  }

  /** After a subexpression with its own final label: a subexpression without flow effects leaves the
      flow as it was before. */
  function WithoutEffects(before: State, after: State, post: FlowId): State {
    (if after.effects then Resume(after, post) else after.(flow := before.flow))
    .(effects := after.effects || before.effects)
  }

  /** A logical expression or assignment: top-level ones join at a label of their own, the others
      branch to the targets of the condition they are part of. */
  function BindLogical(e: Expr, mode: Mode, exceptionTarget: Option<FlowId>, st: State): State
    requires e.Logical? || e.LogicalAssign?
    decreases e, 1, 1
  {
    match mode
    case AsBranch(t, f) => BindLogicalLike(e, t, f, exceptionTarget, st)
    case AsValue =>
      var post := |st.graph|;
      var s0 := NewNode(st, BranchLabel([])).(effects := false);
      WithoutEffects(st, BindLogicalLike(e, post, post, exceptionTarget, s0), post)
  }

  function BindLogicalLike(e: Expr, trueTarget: FlowId, falseTarget: FlowId, exceptionTarget: Option<FlowId>, st: State): State
    requires e.Logical? || e.LogicalAssign?
    decreases e, 1, 0
  {
    var preRight := |st.graph|;
    var s0 := NewNode(st, BranchLabel([]));
    if e.Logical? then BindAndOr(e, trueTarget, falseTarget, preRight, exceptionTarget, s0)
    else BindLogicalAssign(e, trueTarget, falseTarget, preRight, exceptionTarget, s0)
  }

  function LeftTrue(e: Expr, trueTarget: FlowId, preRight: FlowId): FlowId
    requires e.Logical? || e.LogicalAssign?
  {
    if e.op.AmpersandAmpersand? then preRight else trueTarget
  }

  function LeftFalse(e: Expr, falseTarget: FlowId, preRight: FlowId): FlowId
    requires e.Logical? || e.LogicalAssign?
  {
    if e.op.AmpersandAmpersand? then falseTarget else preRight
  }

  function BindAndOr(e: Expr, trueTarget: FlowId, falseTarget: FlowId, preRight: FlowId,
                     exceptionTarget: Option<FlowId>, st: State): State
    requires e.Logical?
    decreases e, 0
  {
    var s1 := BindCondition(e.left, LeftTrue(e, trueTarget, preRight), LeftFalse(e, falseTarget, preRight), exceptionTarget, st);
    BindCondition(e.right, trueTarget, falseTarget, exceptionTarget, Resume(s1, preRight))
  }

  /** The left operand is an identifier: binding it leaves the flow alone. */
  function BindLogicalAssign(e: Expr, trueTarget: FlowId, falseTarget: FlowId, preRight: FlowId,
                             exceptionTarget: Option<FlowId>, st: State): State
    requires e.LogicalAssign?
    decreases e, 0
  {
    var s1 := AddConditions(st, LeftTrue(e, trueTarget, preRight), LeftFalse(e, falseTarget, preRight), Some(Target(e)));
    BindAssignedRight(e, trueTarget, falseTarget, exceptionTarget, Resume(s1, preRight))
  }

  function BindAssignedRight(e: Expr, trueTarget: FlowId, falseTarget: FlowId, exceptionTarget: Option<FlowId>,
                             st: State): State
    requires e.LogicalAssign?
    decreases e, 0, 0
  {
    var s1 := Mutate(BindExpr(e.right, AsValue, exceptionTarget, st), exceptionTarget, e.target);
    AddConditions(s1, trueTarget, falseTarget, Some(e))
  }

  function BindCondition(e: Expr, trueTarget: FlowId, falseTarget: FlowId, exceptionTarget: Option<FlowId>, st: State): State
    decreases e, 2
  {
    var s := BindExpr(e, AsBranch(trueTarget, falseTarget), exceptionTarget, st);
    if IsLogicalExpression(e) || IsLogicalAssignment(e) then s
    else AddConditions(s, trueTarget, falseTarget, Some(e))
  }

  function BindOptional(e: Option<Expr>, exceptionTarget: Option<FlowId>, st: State): State {
    match e
    case None => st
    case Some(x) => BindExpr(x, AsValue, exceptionTarget, st)
  }

  function BindOptionalCondition(e: Option<Expr>, trueTarget: FlowId, falseTarget: FlowId,
                                 exceptionTarget: Option<FlowId>, st: State): State {
    match e
    case None => AddConditions(st, trueTarget, falseTarget, None)
    case Some(x) => BindCondition(x, trueTarget, falseTarget, exceptionTarget, st)
  }

  // ----- targets -----

  /** The labels directly wrapping a loop get its continue target. */
  function SetContinueTarget(labels: seq<ActiveLabel>, wrapping: nat, target: FlowId): (r: seq<ActiveLabel>)
    ensures |r| == |labels|
    ensures forall i :: 0 <= i < |r| ==>
              r[i] == if i < wrapping then labels[i].(continueTarget := Some(target)) else labels[i]
  {
    if wrapping == 0 || labels == [] then labels
    else [labels[0].(continueTarget := Some(target))] + SetContinueTarget(labels[1..], wrapping - 1, target)
  }

  function FindActiveLabel(labels: seq<ActiveLabel>, name: string): Option<ActiveLabel> {
    if labels == [] then None
    else if labels[0].name == name then Some(labels[0])
    else FindActiveLabel(labels[1..], name)
  }

  function BreakTarget(ctx: Context, destination: Option<string>): Option<FlowId> {
    match destination
    case None => ctx.breakTarget
    case Some(name) =>
      match FindActiveLabel(ctx.labels, name)
      case None => None
      case Some(l) => Some(l.breakTarget)
  }

  function ContinueTarget(ctx: Context, destination: Option<string>): Option<FlowId> {
    match destination
    case None => ctx.continueTarget
    case Some(name) =>
      match FindActiveLabel(ctx.labels, name)
      case None => None
      case Some(l) => l.continueTarget
  }

  function Inner(ctx: Context): Context {
    ctx.(wrapping := 0)
  }

  function LoopContext(ctx: Context, breakTarget: FlowId, continueTarget: FlowId): Context {
    Inner(ctx).(breakTarget := Some(breakTarget),
                continueTarget := Some(continueTarget),
                labels := SetContinueTarget(ctx.labels, ctx.wrapping, continueTarget))
  }

  function LabelContext(ctx: Context, name: string, post: FlowId): Context {
    ctx.(labels := [ActiveLabel(name, post, None)] + ctx.labels, wrapping := ctx.wrapping + 1)
  }

  const FUNCTION_CONTEXT := Context(None, None, None, None, [], 0)

  // ----- statements -----

  function BindStmt(s: Stmt, ctx: Context, st: State): State
    decreases s, 1
  {
    if s.Function? then BindContainer(s, st)
    else if Dead(st) then BindDead(s, st)
    else BindLive(s, ctx, Record(s, st))
  }

  /** The flow that reaches a statement is recorded on it. */
  function Record(s: Stmt, st: State): State {
    if IsRecorded(s) then st.(marks := st.marks + {FlowAt(s.id, st.flow)}) else st
  }

  function BindLive(s: Stmt, ctx: Context, st: State): State
    decreases s, 0, 3
  {
    match s
    case Empty(_) => st
    case Function(_, _, _) => st
    case Block(_, ss) => BindBlock(ss, Inner(ctx), st)
    case Var(_, x, init) =>
      var s1 := BindOptional(init, ctx.exceptionTarget, st);
      if init.Some? then Mutate(s1, ctx.exceptionTarget, x) else s1
    case ExprStmt(_, e) =>
      var s1 := BindExpr(e, AsValue, ctx.exceptionTarget, st);
      if e.Call? then CallEffect(s1, e) else s1
    case If(_, c, a, b) =>
      var thenLabel, elseLabel, post := |st.graph|, |st.graph| + 1, |st.graph| + 2;
      var s0 := NewLabels(st, BRANCHES);
      var s1 := BindCondition(c, thenLabel, elseLabel, ctx.exceptionTarget, s0);
      var s2 := Join(BindStmt(a, Inner(ctx), Resume(s1, thenLabel)), post);
      var s3 := Resume(s2, elseLabel);
      var s4 := Join(if b.Some? then BindStmt(b.value, Inner(ctx), s3) else s3, post);
      Resume(s4, post)
    case While(_, c, body) =>
      var preWhile, preBody, post := |st.graph|, |st.graph| + 1, |st.graph| + 2;
      var s0 := NewLabels(st, LOOP).(flow := preWhile);
      var s1 := BindCondition(c, preBody, post, ctx.exceptionTarget, s0);
      var s2 := BindStmt(body, LoopContext(ctx, post, preWhile), Resume(s1, preBody));
      Resume(JoinFrom(Join(s2, preWhile), preWhile, st.flow), post)
    case Do(_, body, c) =>
      var preDo, preCondition, post := |st.graph|, |st.graph| + 1, |st.graph| + 2;
      var s0 := NewLabels(st, LOOP).(flow := preDo);
      var s1 := Join(BindStmt(body, LoopContext(ctx, post, preCondition), s0), preCondition);
      var s2 := BindCondition(c, preDo, post, ctx.exceptionTarget, Resume(s1, preCondition));
      Resume(JoinFrom(s2, preDo, st.flow), post)
    case For(_, init, test, incr, body) =>
      var preLoop, preBody, post := |st.graph|, |st.graph| + 1, |st.graph| + 2;
      var s0 := NewLabels(st, LOOP);
      var s1 := BindOptional(init, ctx.exceptionTarget, s0);
      var s2 := BindOptionalCondition(test, preBody, post, ctx.exceptionTarget, s1.(flow := preLoop));
      var s3 := BindStmt(body, LoopContext(ctx, post, preLoop), Resume(s2, preBody));
      var s4 := BindOptional(incr, ctx.exceptionTarget, s3);
      Resume(JoinFrom(Join(s4, preLoop), preLoop, s1.flow), post)
    case ForOf(_, x, e, body) =>
      var preLoop, post := |st.graph|, |st.graph| + 1;
      var s0 := NewLabels(st, [LoopLabel([]), BranchLabel([])]);
      var s1 := BindExpr(e, AsValue, ctx.exceptionTarget, s0);
      var s2 := Mutate(Join(s1.(flow := preLoop), post), ctx.exceptionTarget, x);
      var s3 := BindStmt(body, LoopContext(ctx, post, preLoop), s2);
      Resume(JoinFrom(Join(s3, preLoop), preLoop, s1.flow), post)
    case Break(_, d) => Jump(st, BreakTarget(ctx, d))
    case Continue(_, d) => Jump(st, ContinueTarget(ctx, d))
    case Return(_, e) =>
      var s1 := BindOptional(e, ctx.exceptionTarget, st);
      var s2 := if ctx.returnTarget.Some? then Join(s1, ctx.returnTarget.value) else s1;
      Terminate(s2).(explicitReturn := true)
    case Throw(_, e) => Terminate(BindExpr(e, AsValue, ctx.exceptionTarget, st))
    case Switch(_, _, _) => BindSwitch(s, ctx, st)
    case Labeled(_, name, body) =>
      var post := |st.graph|;
      var s1 := BindStmt(body, LabelContext(ctx, name, post), NewNode(st, BranchLabel([])));
      Resume(Join(s1, post), post)
    case Try(_, _, _, _) => BindTry(s, Inner(ctx), st)
  }

  function Jump(st: State, target: Option<FlowId>): State {
    if target.Some? then Terminate(Join(st, target.value)) else st
  }

  /** Function declarations are bound first. */
  function BindBlock(ss: seq<Stmt>, ctx: Context, st: State): State
    decreases ss, 1
  {
    if Dead(st) then BindDeads(ss, st)
    else BindOthers(ss, ctx, BindFunctions(ss, st))
  }

  function BindFunctions(ss: seq<Stmt>, st: State): State
    decreases ss, 0
  {
    if ss == [] then st
    else BindFunctions(ss[1..], if ss[0].Function? then BindContainer(ss[0], st) else st)
  }

  function BindOthers(ss: seq<Stmt>, ctx: Context, st: State): State
    decreases ss, 0
  {
    if ss == [] then st
    else BindOthers(ss[1..], ctx, if ss[0].Function? then st else BindStmt(ss[0], ctx, st))
  }

  function BindEach(ss: seq<Stmt>, ctx: Context, st: State): State
    decreases ss, 0
  {
    if ss == [] then st else BindEach(ss[1..], ctx, BindStmt(ss[0], ctx, st))
  }

  // ----- try -----

  /** The state when the parts before the finally block are bound, and the label of the exceptions
      that neither part catches. */
  datatype Guarded = Guarded(state: State, exceptions: FlowId)

  function SealParts(st: State, normalExit: FlowId, exceptions: FlowId, returned: FlowId): State {
    Seal(Seal(Seal(st, normalExit), exceptions), returned)
  }

  function TryContext(s: Stmt, ctx: Context, returnLabel: FlowId, exceptionLabel: FlowId): Context
    requires s.Try?
  {
    ctx.(returnTarget := if s.finalizer.SomeBlock? then Some(returnLabel) else ctx.returnTarget,
         exceptionTarget := Some(exceptionLabel))
  }

  function BindTryBlock(s: Stmt, ctx: Context, st: State): State
    requires s.Try?
    decreases s, 0, 0
  {
    var normalExit, returned, exceptions := |st.graph|, |st.graph| + 1, |st.graph| + 2;
    var s0 := Join(NewLabels(st, BRANCHES), exceptions);
    Join(BindBlock(s.block, TryContext(s, ctx, returned, exceptions), s0), normalExit)
  }

  /** The catch clause acts like a second try block. */
  function BindGuarded(s: Stmt, ctx: Context, st: State): Guarded
    requires s.Try?
    decreases s, 0, 1
  {
    var normalExit, returned, exceptions := |st.graph|, |st.graph| + 1, |st.graph| + 2;
    var s1 := BindTryBlock(s, ctx, st);
    if s.handler.NoBlock? then Guarded(s1, exceptions)
    else
      var c0 := Resume(s1, exceptions);
      var uncaught := |c0.graph|;
      var c1 := Join(NewNode(c0, BranchLabel([])), uncaught);
      Guarded(Join(BindBlock(s.handler.statements, TryContext(s, ctx, returned, uncaught), c1), normalExit), uncaught)
  }

  function BindTry(s: Stmt, ctx: Context, st: State): State
    requires s.Try?
    decreases s, 0, 2
  {
    var normalExit, returned := |st.graph|, |st.graph| + 1;
    var Guarded(s1, exceptions) := BindGuarded(s, ctx, st);
    if s.finalizer.NoBlock? then Resume(s1, normalExit)
    else
      var normalList, exceptionList, returnList :=
        Antecedents(s1.graph, normalExit), Antecedents(s1.graph, exceptions), Antecedents(s1.graph, returned);
      var finallyLabel := |s1.graph|;
      var s2 := NewNode(SealParts(s1, normalExit, exceptions, returned),
                        FinallyLabel(normalList + (exceptionList + returnList))).(flow := finallyLabel);
      var s3 := BindBlock(s.finalizer.statements, ctx, s2);
      LeaveFinally(ctx, s3, finallyLabel, normalList, exceptionList, returnList)
  }

  function AddReduced(st: State, target: Option<FlowId>, finallyLabel: FlowId, list: seq<FlowId>): State {
    if target.Some? && list != [] then
      JoinFrom(NewNode(st, ReduceLabel(finallyLabel, list, st.flow)), target.value, |st.graph|)
    else st
  }

  function LeaveFinally(ctx: Context, st: State, finallyLabel: FlowId,
                        normalList: seq<FlowId>, exceptionList: seq<FlowId>, returnList: seq<FlowId>): State
  {
    if Dead(st) then st.(flow := UNREACHABLE_FLOW)
    else
      var s1 := AddReduced(st, ctx.returnTarget, finallyLabel, returnList);
      var s2 := AddReduced(s1, ctx.exceptionTarget, finallyLabel, exceptionList);
      if normalList != [] then
        NewNode(s2, ReduceLabel(finallyLabel, normalList, s2.flow)).(flow := |s2.graph|)
      else s2.(flow := UNREACHABLE_FLOW)
  }

  // ----- switch -----

  function BindSwitch(s: Stmt, ctx: Context, st: State): State
    requires s.Switch?
    decreases s, 0, 0
  {
    var post := |st.graph|;
    var s1 := BindExpr(s.expr, AsValue, ctx.exceptionTarget, NewNode(st, BranchLabel([])));
    var inner := Inner(ctx).(breakTarget := Some(post));
    var s2 := if Dead(s1) then BindDeadClauses(s.clauses, s1)
              else BindClauses(s, s.clauses, 0, s1.flow, UNREACHABLE_FLOW, inner, s1);
    var s3 := Join(s2, post);
    var s4 := if HasDefault(s.clauses) then s3
              else JoinFrom(NewNode(s3, SwitchClause(s.id, 0, 0, s1.flow)), post, |s3.graph|);
    Resume(s4, post)
  }

  /** Binds the last clauses of the switch. A group starts at clause `start` and ends with the first
      clause that has statements, or the last one; `pre` is the flow before the clauses and `fall`
      the flow that falls out of the previous group. */
  function BindClauses(s: Stmt, rest: seq<Clause>, start: nat, pre: FlowId, fall: FlowId, ctx: Context, st: State): State
    requires s.Switch? && |rest| <= |s.clauses|
    decreases rest
  {
    if rest == [] then st
    else if rest[0].body == [] && |rest| > 1 then
      var s1 := if fall == UNREACHABLE_FLOW then st.(flow := pre) else st;
      BindClauses(s, rest[1..], start, pre, fall, ctx, BindClause(rest[0], pre, ctx, s1))
    else
      var end := |s.clauses| - |rest| + 1;
      var s1 := BindClause(rest[0], pre, ctx, EnterGroup(s, start, end, pre, fall, st));
      BindClauses(s, rest[1..], end, pre, s1.flow, ctx, s1)
  }

  function EnterGroup(s: Stmt, start: nat, end: nat, pre: FlowId, fall: FlowId, st: State): State
    requires s.Switch?
  {
    var preCase := |st.graph|;
    var s0 := NewNode(st, BranchLabel([]));
    var s1 := if IsNarrowingSwitch(s.expr) then
                JoinFrom(NewNode(s0, SwitchClause(s.id, start, end, pre)), preCase, |s0.graph|)
              else JoinFrom(s0, preCase, pre);
    Resume(JoinFrom(s1, preCase, fall), preCase)
  }

  /** The test of a clause is bound from the flow before the clauses; the flow after it is dropped. */
  function BindClause(c: Clause, pre: FlowId, ctx: Context, st: State): State
    decreases c
  {
    if Dead(st) then BindDeads(c.body, st)
    else
      var s1 := if c.test.Some? then
                  BindExpr(c.test.value, AsValue, ctx.exceptionTarget, st.(flow := pre)).(flow := st.flow)
                else st;
      BindEach(c.body, ctx, s1)
  }

  // ----- unreachable code -----

  /** Nothing in unreachable code is added to the graph, except the functions it declares. */
  function BindDead(s: Stmt, st: State): State
    decreases s, 0
  {
    var st := if IsReportable(s) && st.flow == UNREACHABLE_FLOW then st.(flow := REPORTED_UNREACHABLE_FLOW) else st;
    match s
    case Function(_, _, _) => BindContainer(s, st)
    case Block(_, ss) => BindDeads(ss, st)
    case If(_, _, a, b) =>
      var s1 := BindDead(a, st);
      if b.Some? then BindDead(b.value, s1) else s1
    case While(_, _, body) => BindDead(body, st)
    case Do(_, body, _) => BindDead(body, st)
    case For(_, _, _, _, body) => BindDead(body, st)
    case ForOf(_, _, _, body) => BindDead(body, st)
    case Labeled(_, _, body) => BindDead(body, st)
    case Switch(_, _, clauses) => BindDeadClauses(clauses, st)
    case Try(_, b, h, f) =>
      var s1 := BindDeads(b, st);
      var s2 := if h.SomeBlock? then BindDeads(h.statements, s1) else s1;
      if f.SomeBlock? then BindDeads(f.statements, s2) else s2
    case _ => st
  }

  function BindDeads(ss: seq<Stmt>, st: State): State
    decreases ss, 0
  {
    if ss == [] then st else BindDeads(ss[1..], BindDead(ss[0], st))
  }

  function BindDeadClauses(clauses: seq<Clause>, st: State): State
    decreases clauses, 0
  {
    if clauses == [] then st else BindDeadClauses(clauses[1..], BindDeads(clauses[0].body, st))
  }

  // ----- functions -----

  function ContainerContext(s: Stmt, start: FlowId): Context
    requires s.Function?
  {
    if s.isConstructor then FUNCTION_CONTEXT.(returnTarget := Some(start + 1)) else FUNCTION_CONTEXT
  }

  /** A function has a flow graph of its own; a constructor also keeps the flows that return from it. */
  function BindContainer(s: Stmt, st: State): State
    requires s.Function?
    decreases s, 0, 0
  {
    var start := |st.graph|;
    var s0 := NewLabels(st, if s.isConstructor then [Start, BranchLabel([])] else [Start])
              .(flow := start, explicitReturn := false);
    var s1 := BindBlock(s.statements, ContainerContext(s, start), s0);
    LeaveContainer(s, st, s1)
  }

  function LeaveContainer(s: Stmt, before: State, st: State): State
    requires s.Function?
  {
    var s1 := if Dead(st) then st
              else st.(marks := st.marks + {HasImplicitReturn(s.id), EndFlow(s.id, st.flow)}
                                + (if st.explicitReturn then {HasExplicitReturn(s.id)} else {}));
    var s2 := if s.isConstructor then
                var r := Resume(Join(s1, |before.graph| + 1), |before.graph| + 1);
                r.(marks := r.marks + {ReturnFlow(s.id, r.flow)})
              else s1;
    s2.(flow := before.flow, explicitReturn := before.explicitReturn)
  }
}
