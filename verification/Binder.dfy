/** The binder as it works: the current flow, the targets in force, the active labels and the parent of
    the node at hand are fields, overwritten on the way down and restored on the way up. Every method is
    proved to do to the flow graph what FlowBuilder says and to leave the context as it found it. */
module BinderClass {
  import opened Wrappers
  import opened Syntax
  import opened FlowGraph
  import opened FlowBuilder
  import opened FlowGrowth
  import opened ExprSoundness
  import opened Execution
  import opened StmtSoundness
  import opened FlowTheorems
  import opened FlowExactness
  import opened FlowSeals
  import Walks
  import FlowMarks
  import FlowEvidence

  /** What a node can find out about its parent: its kind, and whether the node is its condition. */
  datatype Frame =
    | LabeledFrame
    | ParenFrame
    | NotFrame
    | ConditionFrame // the condition of an if, while, do or for statement or of a conditional expression
    | LogicalFrame   // an operand of && or ||
    | OtherFrame

  /** The expression with these ancestors is not part of a condition. */
  predicate TopLevel(parents: seq<Frame>) {
    if parents == [] then true
    else
      match parents[0]
      case ParenFrame => TopLevel(parents[1..])
      case NotFrame => TopLevel(parents[1..])
      case ConditionFrame => false
      case LogicalFrame => false
      case _ => true
  }

  /** How many labels directly wrap the statement with these ancestors. */
  function Wrapping(parents: seq<Frame>): nat {
    if parents == [] || !parents[0].LabeledFrame? then 0 else 1 + Wrapping(parents[1..])
  }

  /** The active labels that do not directly wrap the statement at hand. */
  function Outer(labels: seq<ActiveLabel>, wrapping: nat): seq<ActiveLabel> {
    if wrapping <= |labels| then labels[wrapping..] else []
  }

  lemma OuterKept(labels: seq<ActiveLabel>, wrapping: nat, target: FlowId)
    ensures Outer(SetContinueTarget(labels, wrapping, target), wrapping) == Outer(labels, wrapping)
  {
  }

  lemma OuterPopped(before: seq<ActiveLabel>, after: seq<ActiveLabel>, wrapping: nat)
    requires |before| == |after| > 0 && Outer(before, wrapping + 1) == Outer(after, wrapping + 1)
    ensures Outer(before[1..], wrapping) == Outer(after[1..], wrapping)
  {
    if wrapping < |before| {
      assert before[1..][wrapping..] == before[wrapping + 1..];
      assert after[1..][wrapping..] == after[wrapping + 1..];
    }
  }

  /** The end of a switch statement: without a default clause no clause may be taken. */
  function SwitchEnd(s: Stmt, pre: FlowId, post: FlowId, st: State): State
    requires s.Switch?
  {
    var s3 := Join(st, post);
    if HasDefault(s.clauses) then s3
    else JoinFrom(NewNode(s3, SwitchClause(s.id, 0, 0, pre)), post, |s3.graph|)
  }

  /** The fields that make up the context of a node. */
  datatype Fields = Fields(
    parents: seq<Frame>,
    breakTarget: Option<FlowId>, continueTarget: Option<FlowId>, returnTarget: Option<FlowId>,
    trueTarget: Option<FlowId>, falseTarget: Option<FlowId>, exceptionTarget: Option<FlowId>,
    preSwitchCaseFlow: FlowId,
    labels: seq<ActiveLabel>)

  class Binder {
    var graph: Graph
    var marks: set<Mark>
    var parents: seq<Frame>
    var currentFlow: FlowId
    var currentBreakTarget: Option<FlowId>
    var currentContinueTarget: Option<FlowId>
    var currentReturnTarget: Option<FlowId>
    var currentTrueTarget: Option<FlowId>
    var currentFalseTarget: Option<FlowId>
    var currentExceptionTarget: Option<FlowId>
    var preSwitchCaseFlow: FlowId
    var activeLabelList: seq<ActiveLabel>
    var hasExplicitReturn: bool
    var hasFlowEffects: bool
    /** The completed labels, with the antecedents they had then. */
    ghost var sealed: set<SealedLabel>

    ghost function St(): State
      reads this
    {
      State(graph, currentFlow, hasFlowEffects, hasExplicitReturn, marks, sealed)
    }

    ghost function Kept(): Fields
      reads this
    {
      Fields(parents, currentBreakTarget, currentContinueTarget, currentReturnTarget,
             currentTrueTarget, currentFalseTarget, currentExceptionTarget, preSwitchCaseFlow, activeLabelList)
    }

    ghost function Ctx(): Context
      reads this
    {
      Context(currentBreakTarget, currentContinueTarget, currentReturnTarget, currentExceptionTarget,
              activeLabelList, Wrapping(parents))
    }

    /** What binding a statement leaves alone: everything, but for the continue targets of the labels
        that directly wrap the statement, which are set while a loop is bound. */
    ghost function Left(): (Fields, nat)
      reads this
    {
      (Kept().(labels := Outer(activeLabelList, Wrapping(parents))), |activeLabelList|)
    }

    /** The targets of a logical expression that is part of a condition are set. */
    ghost predicate Aimed()
      reads this
    {
      !TopLevel(parents) ==> currentTrueTarget.Some? && currentFalseTarget.Some?
    }

    ghost function ModeNow(): Mode
      reads this
      requires Aimed()
    {
      if TopLevel(parents) then AsValue else AsBranch(currentTrueTarget.value, currentFalseTarget.value)
    }

    constructor ()
      ensures St() == State([Unreachable, Unreachable], UNREACHABLE_FLOW, false, false, {}, {})
      ensures Kept() == Fields([], None, None, None, None, None, None, UNREACHABLE_FLOW, [])
    {
      graph, marks, parents, sealed := [Unreachable, Unreachable], {}, [], {};
      currentFlow, preSwitchCaseFlow := UNREACHABLE_FLOW, UNREACHABLE_FLOW;
      currentBreakTarget, currentContinueTarget, currentReturnTarget := None, None, None;
      currentTrueTarget, currentFalseTarget, currentExceptionTarget := None, None, None;
      activeLabelList, hasExplicitReturn, hasFlowEffects := [], false, false;
    }

    // ----- flow nodes -----

    method NewFlowNode(n: FlowNode) returns (f: FlowId)
      modifies this`graph
      ensures graph == old(graph) + [n] && f == |old(graph)|
    {
      f := |graph|;
      graph := graph + [n];
    }

    method CreateBranchLabels() returns (a: FlowId, b: FlowId, c: FlowId)
      modifies this`graph
      ensures graph == old(graph) + BRANCHES
      ensures a == |old(graph)| && b == a + 1 && c == a + 2
    {
      a := NewFlowNode(BranchLabel([]));
      b := NewFlowNode(BranchLabel([]));
      c := NewFlowNode(BranchLabel([]));
    }

    method AddAntecedentTo(target: FlowId, antecedent: FlowId)
      modifies this`graph
      ensures graph == AddAntecedent(old(graph), target, antecedent)
    {
      if !IsUnreachable(graph, antecedent) && target < |graph| && IsLabel(graph[target]) {
        if antecedent !in graph[target].antecedents {
          graph := graph[target := graph[target].(antecedents := [antecedent] + graph[target].antecedents)];
        }
      }
    }

    /** Completes a label: the flow that goes on from it. */
    method FinishLabel(join: FlowId) returns (f: FlowId)
      modifies this`sealed
      ensures St().(flow := f) == Resume(old(St()), join)
    {
      sealed := sealed + {SealedLabel(join, Antecedents(graph, join))};
      f := FinishFlowLabel(graph, join);
    }

    method CreateFlowMutation(target: string) returns (f: FlowId)
      modifies this`graph, this`hasFlowEffects
      ensures St().(flow := f) == Mutate(old(St()), currentExceptionTarget, target)
    {
      hasFlowEffects := true;
      f := NewFlowNode(Assignment(target, currentFlow));
      if currentExceptionTarget.Some? {
        AddAntecedentTo(currentExceptionTarget.value, f);
      }
    }

    method CreateFlowCondition(sense: bool, e: Option<Expr>) returns (f: FlowId)
      modifies this`graph
      ensures (graph, f) == CreateCondition(old(graph), sense, e, currentFlow)
    {
      if IsUnreachable(graph, currentFlow) {
        return currentFlow;
      }
      if e.None? {
        return if sense then currentFlow else UNREACHABLE_FLOW;
      }
      if (e.value.TrueLiteral? && !sense) || (e.value.FalseLiteral? && sense) {
        return UNREACHABLE_FLOW;
      }
      if !IsNarrowing(e.value) {
        return currentFlow;
      }
      f := NewFlowNode(Condition(sense, e.value, currentFlow));
    }

    method AddFlowConditions(trueTarget: FlowId, falseTarget: FlowId, e: Option<Expr>)
      modifies this`graph
      ensures St() == AddConditions(old(St()), trueTarget, falseTarget, e)
    {
      var t := CreateFlowCondition(true, e);
      AddAntecedentTo(trueTarget, t);
      var f := CreateFlowCondition(false, e);
      AddAntecedentTo(falseTarget, f);
    }

    // ----- expressions -----

    /** Walks up parentheses and negations. */
    method IsTopLevelLogicalExpression() returns (r: bool)
      ensures r == TopLevel(parents)
    {
      var i := 0;
      while i < |parents| && (parents[i].ParenFrame? || parents[i].NotFrame?)
        invariant 0 <= i <= |parents| && TopLevel(parents[i..]) == TopLevel(parents)
      {
        i := i + 1;
      }
      return i == |parents| || !(parents[i].ConditionFrame? || parents[i].LogicalFrame?);
    }

    /** Binds an expression as a child of the current node. */
    method BindChild(frame: Frame, e: Expr)
      requires frame.ParenFrame? || frame.NotFrame? ==> Aimed()
      requires frame.ConditionFrame? || frame.LogicalFrame? ==> currentTrueTarget.Some? && currentFalseTarget.Some?
      modifies this
      ensures var mode := if frame.ParenFrame? || frame.NotFrame? then old(ModeNow())
                          else if frame.ConditionFrame? || frame.LogicalFrame? then old(AsBranch(currentTrueTarget.value, currentFalseTarget.value))
                          else AsValue;
              St() == BindExpr(e, mode, old(currentExceptionTarget), old(St()))
      ensures Kept() == old(Kept())
      decreases e, 2
    {
      var saveParents := parents;
      parents := [frame] + parents;
      assert parents[1..] == saveParents;
      Bind(e);
      parents := saveParents;
    }

    /** Binds an expression: nothing happens to the graph while the current flow is unreachable. */
    method Bind(e: Expr)
      requires Aimed()
      modifies this
      ensures St() == BindExpr(e, old(ModeNow()), old(currentExceptionTarget), old(St()))
      ensures Kept() == old(Kept())
      decreases e, 1
    {
      if IsUnreachable(graph, currentFlow) {
        return;
      }
      hide BindLogical, BindConditional, Mutate, Negated, Kept;
      match e {
        case Paren(x) => BindChild(ParenFrame, x);
        case Not(x) => BindPrefixUnaryExpressionFlow(e);
        case Conditional(_, _, _) => BindConditionalExpressionFlow(e);
        case Call(_, _, a) => BindChild(OtherFrame, a);
        case _ => BindBinaryExpressionFlow(e);
      }
    }

    /** An operator expression; any other expression has no children. */
    method BindBinaryExpressionFlow(e: Expr)
      requires !IsUnreachable(graph, currentFlow)
      requires !(e.Paren? || e.Not? || e.Conditional? || e.Call?) && Aimed()
      modifies this
      ensures St() == BindExpr(e, old(ModeNow()), old(currentExceptionTarget), old(St()))
      ensures Kept() == old(Kept())
      decreases e, 1, 2
    {
      hide BindLogical, BindConditional, Mutate, Negated, TopLevel;
      match e {
        case Logical(_, _, _) => BindLogicalExpression(e);
        case LogicalAssign(_, _, _, _) => BindLogicalExpression(e);
        case Assign(x, _, r) =>
          BindChild(OtherFrame, r);
          currentFlow := CreateFlowMutation(x);
        case Binary(_, l, r) =>
          BindChild(OtherFrame, l);
          BindChild(OtherFrame, r);
        case _ =>
      }
    }

    /** The operand of a negation has the targets swapped. */
    method BindPrefixUnaryExpressionFlow(e: Expr)
      requires e.Not? && Aimed()
      modifies this
      ensures St() == BindExpr(e.operand, Negated(old(ModeNow())), old(currentExceptionTarget), old(St()))
      ensures Kept() == old(Kept())
      decreases e, 0
    {
      hide BindExpr;
      var saveTrueTarget := currentTrueTarget;
      currentTrueTarget := currentFalseTarget;
      currentFalseTarget := saveTrueTarget;
      BindChild(NotFrame, e.operand);
      currentFalseTarget := currentTrueTarget;
      currentTrueTarget := saveTrueTarget;
    }

    /** After a subexpression: without flow effects in it, the flow before it is taken up again. */
    method LeaveWithoutEffects(postLabel: FlowId, saveCurrentFlow: FlowId, saveHasFlowEffects: bool, ghost before: State)
      requires before.flow == saveCurrentFlow && before.effects == saveHasFlowEffects
      modifies this`currentFlow, this`hasFlowEffects, this`sealed
      ensures St() == WithoutEffects(before, old(St()), postLabel)
    {
      hide FinishFlowLabel;
      if hasFlowEffects {
        currentFlow := FinishLabel(postLabel);
      } else {
        currentFlow := saveCurrentFlow;
      }
      hasFlowEffects := hasFlowEffects || saveHasFlowEffects;
    }

    method BindLogicalExpression(e: Expr)
      requires (e.Logical? || e.LogicalAssign?) && Aimed()
      modifies this
      ensures St() == BindLogical(e, old(ModeNow()), old(currentExceptionTarget), old(St()))
      ensures Kept() == old(Kept())
      decreases e, 1, 1
    {
      var topLevel := IsTopLevelLogicalExpression();
      if topLevel {
        var postExpressionLabel := NewFlowNode(BranchLabel([]));
        var saveCurrentFlow, saveHasFlowEffects := currentFlow, hasFlowEffects;
        ghost var before := St();
        hasFlowEffects := false;
        BindLogicalLikeExpression(e, postExpressionLabel, postExpressionLabel);
        LeaveWithoutEffects(postExpressionLabel, saveCurrentFlow, saveHasFlowEffects, before);
      } else {
        BindLogicalLikeExpression(e, currentTrueTarget.value, currentFalseTarget.value);
      }
    }

    method BindLogicalLikeExpression(e: Expr, trueTarget: FlowId, falseTarget: FlowId)
      requires e.Logical? || e.LogicalAssign?
      modifies this
      ensures St() == BindLogicalLike(e, trueTarget, falseTarget, old(currentExceptionTarget), old(St()))
      ensures Kept() == old(Kept())
      decreases e, 1, 0
    {
      hide BindAndOr, BindLogicalAssign;
      var preRightLabel := NewFlowNode(BranchLabel([]));
      if e.Logical? {
        BindAndOrOperands(e, trueTarget, falseTarget, preRightLabel);
      } else {
        BindLogicalAssignment(e, trueTarget, falseTarget, preRightLabel);
      }
    }

    method BindAndOrOperands(e: Expr, trueTarget: FlowId, falseTarget: FlowId, preRightLabel: FlowId)
      requires e.Logical?
      modifies this
      ensures St() == BindAndOr(e, trueTarget, falseTarget, preRightLabel, old(currentExceptionTarget), old(St()))
      ensures Kept() == old(Kept())
      decreases e, 0
    {
      hide BindCondition, FinishFlowLabel;
      BindConditionOf(LogicalFrame, e.left, LeftTrue(e, trueTarget, preRightLabel), LeftFalse(e, falseTarget, preRightLabel));
      currentFlow := FinishLabel(preRightLabel);
      BindConditionOf(LogicalFrame, e.right, trueTarget, falseTarget);
    }

    method BindLogicalAssignment(e: Expr, trueTarget: FlowId, falseTarget: FlowId, preRightLabel: FlowId)
      requires e.LogicalAssign?
      modifies this
      ensures St() == BindLogicalAssign(e, trueTarget, falseTarget, preRightLabel, old(currentExceptionTarget), old(St()))
      ensures Kept() == old(Kept())
      decreases e, 0
    {
      hide BindAssignedRight, Resume, AddConditions;
      AddFlowConditions(LeftTrue(e, trueTarget, preRightLabel), LeftFalse(e, falseTarget, preRightLabel), Some(Target(e)));
      currentFlow := FinishLabel(preRightLabel);
      BindAssignedOperand(e, trueTarget, falseTarget);
    }

    method BindAssignedOperand(e: Expr, trueTarget: FlowId, falseTarget: FlowId)
      requires e.LogicalAssign?
      modifies this
      ensures St() == BindAssignedRight(e, trueTarget, falseTarget, old(currentExceptionTarget), old(St()))
      ensures Kept() == old(Kept())
      decreases e, 0, 0
    {
      hide BindExpr, AddConditions, Mutate;
      var saveTrueTarget, saveFalseTarget := currentTrueTarget, currentFalseTarget;
      currentTrueTarget, currentFalseTarget := Some(trueTarget), Some(falseTarget);
      BindChild(OtherFrame, e.right);
      currentTrueTarget, currentFalseTarget := saveTrueTarget, saveFalseTarget;
      currentFlow := CreateFlowMutation(e.target);
      AddFlowConditions(trueTarget, falseTarget, Some(e));
    }

    method BindConditionOf(frame: Frame, e: Expr, trueTarget: FlowId, falseTarget: FlowId)
      requires frame.ConditionFrame? || frame.LogicalFrame?
      modifies this
      ensures St() == BindCondition(e, trueTarget, falseTarget, old(currentExceptionTarget), old(St()))
      ensures Kept() == old(Kept())
      decreases e, 3
    {
      var saveTrueTarget, saveFalseTarget := currentTrueTarget, currentFalseTarget;
      currentTrueTarget, currentFalseTarget := Some(trueTarget), Some(falseTarget);
      BindChild(frame, e);
      currentTrueTarget, currentFalseTarget := saveTrueTarget, saveFalseTarget;
      if !IsLogicalAssignment(e) && !IsLogicalExpression(e) {
        AddFlowConditions(trueTarget, falseTarget, Some(e));
      }
    }

    method BindConditionalExpressionFlow(e: Expr)
      requires e.Conditional?
      modifies this
      ensures St() == BindConditional(e, old(currentExceptionTarget), old(St()))
      ensures Kept() == old(Kept())
      decreases e, 0
    {
      hide BindExpr, BindCondition, FinishFlowLabel, AddAntecedent, Resume;
      var trueLabel, falseLabel, postExpressionLabel := CreateBranchLabels();
      var saveCurrentFlow, saveHasFlowEffects := currentFlow, hasFlowEffects;
      ghost var before := St();
      hasFlowEffects := false;
      BindConditionOf(ConditionFrame, e.condition, trueLabel, falseLabel);
      BindArm(trueLabel, e.whenTrue, postExpressionLabel);
      BindArm(falseLabel, e.whenFalse, postExpressionLabel);
      LeaveWithoutEffects(postExpressionLabel, saveCurrentFlow, saveHasFlowEffects, before);
    }

    /** One arm of a conditional expression. */
    method BindArm(start: FlowId, e: Expr, post: FlowId)
      modifies this
      ensures St() == Join(BindExpr(e, AsValue, old(currentExceptionTarget), Resume(old(St()), start)), post)
      ensures Kept() == old(Kept())
      decreases e, 3
    {
      hide BindExpr, FinishFlowLabel, AddAntecedent;
      currentFlow := FinishLabel(start);
      BindChild(OtherFrame, e);
      AddAntecedentTo(post, currentFlow);
    }

    // ----- statements -----

    /** Binds a statement. Functions have a flow of their own; any other statement is bound only if the
        current flow is reachable, or else for the functions inside it. */
    method BindStatement(s: Stmt)
      requires Valid(St())
      modifies this
      ensures St() == BindStmt(s, old(Ctx()), old(St()))
      ensures Left() == old(Left())
      decreases s, 4
    {
      hide Valid, BindContainer, BindLive, BindDead;
      if s.Function? {
        BindFunctionContainer(s);
        return;
      }
      if IsUnreachable(graph, currentFlow) {
        BindUnreachable(s);
        return;
      }
      if IsRecorded(s) {
        marks := marks + {FlowAt(s.id, currentFlow)};
      }
      assert Valid(St()) by { FlowInRange(old(St())); MoveGrows(old(St()), St()); }
      BindLiveStatement(s);
    }

    /** Binds a statement whose parent is not a label. */
    method BindInner(s: Stmt)
      requires Valid(St())
      modifies this
      ensures St() == BindStmt(s, old(Inner(Ctx())), old(St()))
      ensures Kept() == old(Kept())
      decreases s, 5
    {
      hide Valid, BindStmt;
      var saveParents := parents;
      parents := [OtherFrame] + parents;
      BindStatement(s);
      parents := saveParents;
    }

    method BindIterativeStatement(s: Stmt, breakTarget: FlowId, continueTarget: FlowId)
      requires Valid(St())
      modifies this
      ensures St() == BindStmt(s, old(Inner(Ctx())).(breakTarget := Some(breakTarget), continueTarget := Some(continueTarget)), old(St()))
      ensures Kept() == old(Kept())
      decreases s, 6
    {
      hide Valid, BindStmt;
      var saveBreakTarget, saveContinueTarget := currentBreakTarget, currentContinueTarget;
      currentBreakTarget, currentContinueTarget := Some(breakTarget), Some(continueTarget);
      BindInner(s);
      currentBreakTarget, currentContinueTarget := saveBreakTarget, saveContinueTarget;
    }

    /** Only the labels that directly wrap a loop get its continue target. */
    method SetContinueTargets(target: FlowId)
      modifies this`activeLabelList
      ensures activeLabelList == SetContinueTarget(old(activeLabelList), Wrapping(parents), target)
    {
      var i := 0;
      while i < |activeLabelList| && i < |parents| && parents[i].LabeledFrame?
        invariant 0 <= i <= |parents| && i <= |activeLabelList| == |old(activeLabelList)|
        invariant Wrapping(parents) == i + Wrapping(parents[i..])
        invariant forall j :: 0 <= j < |activeLabelList| ==>
                    activeLabelList[j] == if j < i then old(activeLabelList)[j].(continueTarget := Some(target)) else old(activeLabelList)[j]
      {
        activeLabelList := activeLabelList[i := activeLabelList[i].(continueTarget := Some(target))];
        i := i + 1;
      }
    }

    /** The labels of a loop; its second label is the target of `continue` in a do statement. */
    method CreateLoopLabels(continueToSecond: bool) returns (first: FlowId, second: FlowId, post: FlowId)
      modifies this`graph, this`activeLabelList
      ensures first == |old(graph)| && second == first + 1 && post == first + 2 && graph == old(graph) + LOOP
      ensures activeLabelList == SetContinueTarget(old(activeLabelList), Wrapping(parents), if continueToSecond then second else first)
      ensures Left() == old(Left())
    {
      hide Wrapping;
      OuterKept(activeLabelList, Wrapping(parents), if continueToSecond then |graph| + 1 else |graph|);
      first := NewFlowNode(LoopLabel([]));
      if !continueToSecond {
        SetContinueTargets(first);
      }
      second := NewFlowNode(BranchLabel([]));
      if continueToSecond {
        SetContinueTargets(second);
      }
      post := NewFlowNode(BranchLabel([]));
    }

    method CreateForOfLabels() returns (first: FlowId, post: FlowId)
      modifies this`graph, this`activeLabelList
      ensures first == |old(graph)| && post == first + 1 && graph == old(graph) + [LoopLabel([]), BranchLabel([])]
      ensures activeLabelList == SetContinueTarget(old(activeLabelList), Wrapping(parents), first)
      ensures Left() == old(Left())
    {
      hide Wrapping;
      OuterKept(activeLabelList, Wrapping(parents), |graph|);
      first := NewFlowNode(LoopLabel([]));
      SetContinueTargets(first);
      post := NewFlowNode(BranchLabel([]));
    }

    method BindLiveStatement(s: Stmt)
      requires Valid(St())
      modifies this
      ensures St() == BindLive(s, old(Ctx()), old(St()))
      ensures Left() == old(Left())
      decreases s, 3
    {
      match s {
        case Block(_, ss) => BindBlockStatements(ss);
        case If(_, _, _, _) => BindIfStatement(s);
        case While(_, _, _) => BindWhileStatement(s);
        case Do(_, _, _) => BindDoStatement(s);
        case For(_, _, _, _, _) => BindForStatement(s);
        case ForOf(_, _, _, _) => BindForOfStatement(s);
        case Switch(_, _, _) => BindSwitchStatement(s);
        case Labeled(_, _, _) => BindLabeledStatement(s);
        case Try(_, _, _, _) => BindTryStatement(s);
        case _ => BindSimpleStatement(s);
      }
    }

    method BindWhileStatement(s: Stmt)
      requires Valid(St()) && s.While?
      modifies this
      ensures St() == BindLive(s, old(Ctx()), old(St()))
      ensures Left() == old(Left())
      decreases s, 2
    {
      hide Valid, BindStmt, BindCondition, AddAntecedent, Resume, Extends, Outer, Wrapping, BindLive;
      ghost var s0, s1, s2, done := WhileStages(s, Ctx(), St());
      var preWhileLabel, preBodyLabel, postWhileLabel := CreateLoopLabels(false);
      var topFlow := currentFlow;
      currentFlow := preWhileLabel;
      BindConditionOf(ConditionFrame, s.cond, preBodyLabel, postWhileLabel);
      currentFlow := FinishLabel(preBodyLabel);
      BindIterativeStatement(s.body, postWhileLabel, preWhileLabel);
      CloseLoop(preWhileLabel, topFlow, postWhileLabel);
    }

    /** The end of a loop: back to its start, which is also entered from above. */
    method CloseLoop(preLoopLabel: FlowId, topFlow: FlowId, postLoopLabel: FlowId)
      modifies this`graph, this`currentFlow, this`sealed
      ensures St() == Resume(JoinFrom(Join(old(St()), preLoopLabel), preLoopLabel, topFlow), postLoopLabel)
    {
      AddAntecedentTo(preLoopLabel, currentFlow);
      AddAntecedentTo(preLoopLabel, topFlow);
      currentFlow := FinishLabel(postLoopLabel);
    }

    method BindDoStatement(s: Stmt)
      requires Valid(St()) && s.Do?
      modifies this
      ensures St() == BindLive(s, old(Ctx()), old(St()))
      ensures Left() == old(Left())
      decreases s, 2
    {
      hide Valid, BindStmt, BindCondition, AddAntecedent, Resume, Extends, Outer, Wrapping, BindLive;
      ghost var s0, b, s1, s2, done := DoStages(s, Ctx(), St());
      var preDoLabel, preConditionLabel, postDoLabel := CreateLoopLabels(true);
      var topFlow := currentFlow;
      currentFlow := preDoLabel;
      assert St() == s0;
      BindIterativeStatement(s.body, postDoLabel, preConditionLabel);
      assert St() == b;
      AddAntecedentTo(preConditionLabel, currentFlow);
      currentFlow := FinishLabel(preConditionLabel);
      assert St() == s1;
      BindConditionOf(ConditionFrame, s.cond, preDoLabel, postDoLabel);
      assert St() == s2;
      AddAntecedentTo(preDoLabel, topFlow);
      currentFlow := FinishLabel(postDoLabel);
    }

    method BindOptionalExpression(e: Option<Expr>)
      modifies this
      ensures St() == BindOptional(e, old(currentExceptionTarget), old(St()))
      ensures Kept() == old(Kept())
      decreases e, 3
    {
      hide BindExpr;
      if e.Some? {
        BindChild(OtherFrame, e.value);
      }
    }

    method BindOptionalConditionOf(e: Option<Expr>, trueTarget: FlowId, falseTarget: FlowId)
      modifies this
      ensures St() == BindOptionalCondition(e, trueTarget, falseTarget, old(currentExceptionTarget), old(St()))
      ensures Kept() == old(Kept())
      decreases e, 4
    {
      hide BindCondition, AddConditions;
      if e.Some? {
        BindConditionOf(ConditionFrame, e.value, trueTarget, falseTarget);
      } else {
        AddFlowConditions(trueTarget, falseTarget, None);
      }
    }

    method BindForStatement(s: Stmt)
      requires Valid(St()) && s.For?
      modifies this
      ensures St() == BindLive(s, old(Ctx()), old(St()))
      ensures Left() == old(Left())
      decreases s, 2
    {
      hide Valid, BindStmt, BindOptional, BindOptionalCondition, AddAntecedent, Resume, Extends, Outer, Wrapping,
           BindLive;
      ghost var s0, s1, s2, s3, s4, done := ForStages(s, Ctx(), St());
      var preLoopLabel, preBodyLabel, postLoopLabel := CreateLoopLabels(false);
      BindOptionalExpression(s.init);
      assert St() == s1;
      var topFlow := currentFlow;
      currentFlow := preLoopLabel;
      BindOptionalConditionOf(s.test, preBodyLabel, postLoopLabel);
      assert St() == s2;
      currentFlow := FinishLabel(preBodyLabel);
      BindIterativeStatement(s.body, postLoopLabel, preLoopLabel);
      assert St() == s3;
      BindOptionalExpression(s.incr);
      CloseLoop(preLoopLabel, topFlow, postLoopLabel);
    }

    method BindForOfStatement(s: Stmt)
      requires Valid(St()) && s.ForOf?
      modifies this
      ensures St() == BindLive(s, old(Ctx()), old(St()))
      ensures Left() == old(Left())
      decreases s, 2
    {
      hide Valid, BindStmt, BindExpr, Mutate, AddAntecedent, Resume, Extends, Outer, Wrapping, BindLive;
      ghost var s0, s1, t1, s2, s3, done := ForOfStages(s, Ctx(), St());
      var preLoopLabel, postLoopLabel := CreateForOfLabels();
      BindChild(OtherFrame, s.expr);
      assert St() == s1;
      var topFlow := currentFlow;
      EnterForOf(preLoopLabel, s.target, postLoopLabel);
      assert St() == s2;
      BindIterativeStatement(s.body, postLoopLabel, preLoopLabel);
      assert St() == s3;
      CloseLoop(preLoopLabel, topFlow, postLoopLabel);
    }

    /** The loop may end before each assignment to its variable. */
    method EnterForOf(preLoopLabel: FlowId, target: string, postLoopLabel: FlowId)
      modifies this`graph, this`currentFlow, this`hasFlowEffects
      ensures St() == Mutate(Join(old(St()).(flow := preLoopLabel), postLoopLabel), currentExceptionTarget, target)
    {
      hide Mutate, AddAntecedent;
      currentFlow := preLoopLabel;
      AddAntecedentTo(postLoopLabel, currentFlow);
      currentFlow := CreateFlowMutation(target);
    }

    method BindIfStatement(s: Stmt)
      requires Valid(St()) && s.If?
      modifies this
      ensures St() == BindLive(s, old(Ctx()), old(St()))
      ensures Left() == old(Left())
      decreases s, 2
    {
      hide Valid, BindStmt, BindCondition, AddAntecedent, Resume, Extends, Outer, Wrapping, BindLive;
      ghost var s0, s1, t, s3, e, done := IfStages(s, Ctx(), St());
      var thenLabel, elseLabel, postIfLabel := CreateBranchLabels();
      BindConditionOf(ConditionFrame, s.cond, thenLabel, elseLabel);
      assert St() == s1;
      BindBranch(thenLabel, s.thenStmt, postIfLabel);
      assert St() == Join(t, postIfLabel);
      if s.elseStmt.Some? {
        BindBranch(elseLabel, s.elseStmt.value, postIfLabel);
      } else {
        currentFlow := FinishLabel(elseLabel);
        AddAntecedentTo(postIfLabel, currentFlow);
      }
      assert St() == done;
      currentFlow := FinishLabel(postIfLabel);
    }

    /** One branch of an if statement. */
    method BindBranch(start: FlowId, s: Stmt, post: FlowId)
      requires Valid(Resume(St(), start))
      modifies this
      ensures St() == Join(BindStmt(s, old(Inner(Ctx())), Resume(old(St()), start)), post)
      ensures Kept() == old(Kept())
      decreases s, 6
    {
      hide Valid, BindStmt, AddAntecedent, FinishFlowLabel, Resume;
      currentFlow := FinishLabel(start);
      BindInner(s);
      AddAntecedentTo(post, currentFlow);
    }

    /** Statements without statements inside. */
    method BindSimpleStatement(s: Stmt)
      requires s.Empty? || s.Function? || s.Var? || s.ExprStmt? || s.Break? || s.Continue? || s.Return? || s.Throw?
      modifies this
      ensures St() == BindLive(s, old(Ctx()), old(St()))
      ensures Kept() == old(Kept())
      decreases s, 2
    {
      hide BindExpr, Mutate, CallEffect, AddAntecedent, BreakTarget, ContinueTarget, Jump, Wrapping;
      match s {
        case Var(_, x, init) =>
          BindOptionalExpression(init);
          if init.Some? {
            currentFlow := CreateFlowMutation(x);
          }
        case ExprStmt(_, e) =>
          BindChild(OtherFrame, e);
          if e.Call? {
            currentFlow := CreateFlowCall(e);
          }
        case Break(_, _) => BindBreakOrContinueStatement(s);
        case Continue(_, _) => BindBreakOrContinueStatement(s);
        case Return(_, _) => BindReturnStatement(s);
        case Throw(_, e) =>
          BindChild(OtherFrame, e);
          currentFlow, hasFlowEffects := UNREACHABLE_FLOW, true;
        case _ =>
      }
    }

    method BindReturnStatement(s: Stmt)
      requires s.Return?
      modifies this
      ensures St() == BindLive(s, old(Ctx()), old(St()))
      ensures Kept() == old(Kept())
      decreases s, 1
    {
      hide BindOptional, AddAntecedent, Wrapping;
      BindOptionalExpression(s.result);
      if currentReturnTarget.Some? {
        AddAntecedentTo(currentReturnTarget.value, currentFlow);
      }
      currentFlow, hasExplicitReturn, hasFlowEffects := UNREACHABLE_FLOW, true, true;
    }

    method CreateFlowCall(e: Expr) returns (f: FlowId)
      modifies this`graph, this`hasFlowEffects
      ensures St().(flow := f) == CallEffect(old(St()), e)
    {
      hasFlowEffects := true;
      f := NewFlowNode(AssertionCall(e, currentFlow));
    }

    method FindLabel(name: string) returns (found: Option<ActiveLabel>)
      ensures found == FindActiveLabel(activeLabelList, name)
    {
      var i := 0;
      while i < |activeLabelList|
        invariant 0 <= i <= |activeLabelList|
        invariant FindActiveLabel(activeLabelList, name) == FindActiveLabel(activeLabelList[i..], name)
      {
        if activeLabelList[i].name == name {
          return Some(activeLabelList[i]);
        }
        i := i + 1;
      }
      return None;
    }

    method BindBreakOrContinueStatement(s: Stmt)
      requires s.Break? || s.Continue?
      modifies this`graph, this`currentFlow, this`hasFlowEffects
      ensures St() == Jump(old(St()), if s.Break? then BreakTarget(old(Ctx()), s.destination) else ContinueTarget(old(Ctx()), s.destination))
    {
      hide Wrapping, AddAntecedent;
      var target := if s.Break? then currentBreakTarget else currentContinueTarget;
      if s.destination.Some? {
        var activeLabel := FindLabel(s.destination.value);
        target := if activeLabel.None? then None
                  else if s.Break? then Some(activeLabel.value.breakTarget)
                  else activeLabel.value.continueTarget;
      }
      if target.Some? {
        AddAntecedentTo(target.value, currentFlow);
        currentFlow, hasFlowEffects := UNREACHABLE_FLOW, true;
      }
    }

    method BindLabeledStatement(s: Stmt)
      requires Valid(St()) && s.Labeled?
      modifies this
      ensures St() == BindLive(s, old(Ctx()), old(St()))
      ensures Left() == old(Left())
      decreases s, 2
    {
      hide Valid, BindStmt, AddAntecedent, Resume, Wrapping, Outer;
      var postStatementLabel := NewFlowNode(BranchLabel([]));
      assert Valid(St()) by {
        FlowInRange(old(St()));
        AppendGrows(old(St()), St(), [BranchLabel([])]);
      }
      BindLabeledBody(s.body, s.name, postStatementLabel);
      assert St() == BindStmt(s.body, LabelContext(old(Ctx()), s.name, postStatementLabel), NewNode(old(St()), BranchLabel([])));
      AddAntecedentTo(postStatementLabel, currentFlow);
      currentFlow := FinishLabel(postStatementLabel);
    }

    /** The label is active while its statement is bound. */
    method BindLabeledBody(s: Stmt, name: string, post: FlowId)
      requires Valid(St())
      modifies this
      ensures St() == BindStmt(s, LabelContext(old(Ctx()), name, post), old(St()))
      ensures Left() == old(Left())
      decreases s, 5
    {
      hide Valid, BindStmt;
      activeLabelList := [ActiveLabel(name, post, None)] + activeLabelList;
      var saveParents := parents;
      parents := [LabeledFrame] + parents;
      assert parents[1..] == saveParents;
      label pushed:
      assert St() == old(St()) && Ctx() == LabelContext(old(Ctx()), name, post);
      BindStatement(s);
      assert |activeLabelList| == |old(activeLabelList)| + 1;
      OuterPopped(old@pushed(activeLabelList), activeLabelList, Wrapping(saveParents));
      parents := saveParents;
      activeLabelList := activeLabelList[1..];
    }

    // ----- blocks -----

    /** Function declarations first, if the block is reachable. */
    method BindBlockStatements(ss: seq<Stmt>)
      requires Valid(St())
      modifies this
      ensures St() == BindBlock(ss, old(Inner(Ctx())), old(St()))
      ensures Kept() == old(Kept())
      decreases ss, 1
    {
      hide Valid, BindDeads, BindFunctions, BindOthers, Wrapping;
      if IsUnreachable(graph, currentFlow) {
        BindEachUnreachable(ss);
      } else {
        BindFunctionDeclarations(ss);
        assert Valid(St()) by { FunctionsGrow(ss, old(St())); }
        BindOtherStatements(ss);
      }
    }

    method BindFunctionDeclarations(ss: seq<Stmt>)
      requires Valid(St())
      modifies this
      ensures St() == BindFunctions(ss, old(St()))
      ensures Kept() == old(Kept())
      decreases ss, 0
    {
      hide Valid, BindContainer, Wrapping;
      var i := 0;
      while i < |ss|
        invariant 0 <= i <= |ss| && Valid(St()) && Kept() == old(Kept())
        invariant BindFunctions(ss, old(St())) == BindFunctions(ss[i..], St())
      {
        assert ss[i..][1..] == ss[i + 1..];
        if ss[i].Function? {
          ContainerGrows(ss[i], St());
          BindFunctionContainer(ss[i]);
        }
        i := i + 1;
      }
    }

    method BindOtherStatements(ss: seq<Stmt>)
      requires Valid(St())
      modifies this
      ensures St() == BindOthers(ss, old(Inner(Ctx())), old(St()))
      ensures Kept() == old(Kept())
      decreases ss, 0
    {
      hide Valid, BindStmt, Wrapping;
      var i := 0;
      while i < |ss|
        invariant 0 <= i <= |ss| && Valid(St()) && Kept() == old(Kept()) && Ctx() == old(Ctx())
        invariant BindOthers(ss, old(Inner(Ctx())), old(St())) == BindOthers(ss[i..], old(Inner(Ctx())), St())
      {
        assert ss[i..][1..] == ss[i + 1..];
        if !ss[i].Function? {
          StmtGrows(ss[i], Inner(Ctx()), St());
          BindInner(ss[i]);
        }
        i := i + 1;
      }
    }

    method BindEachStatement(ss: seq<Stmt>)
      requires Valid(St())
      modifies this
      ensures St() == BindEach(ss, old(Inner(Ctx())), old(St()))
      ensures Kept() == old(Kept())
      decreases ss, 0
    {
      hide Valid, BindStmt, Wrapping;
      var i := 0;
      while i < |ss|
        invariant 0 <= i <= |ss| && Valid(St()) && Kept() == old(Kept()) && Ctx() == old(Ctx())
        invariant BindEach(ss, old(Inner(Ctx())), old(St())) == BindEach(ss[i..], old(Inner(Ctx())), St())
      {
        assert ss[i..][1..] == ss[i + 1..];
        StmtGrows(ss[i], Inner(Ctx()), St());
        BindInner(ss[i]);
        i := i + 1;
      }
    }

    // ----- unreachable code -----

    method BindUnreachable(s: Stmt)
      requires Valid(St()) && Dead(St()) && !s.Function?
      modifies this
      ensures St() == BindDead(s, old(St()))
      ensures Kept() == old(Kept())
      decreases s, 3
    {
      hide Valid, Wrapping, BindDead;
      ReportedDead(s, St());
      if IsReportable(s) && currentFlow == UNREACHABLE_FLOW {
        currentFlow := REPORTED_UNREACHABLE_FLOW;
      }
      BindUnreachableChildren(s, old(St()));
    }

    /** The children in order. */
    method BindUnreachableChildren(s: Stmt, ghost before: State)
      requires Valid(St()) && Dead(St()) && !s.Function?
      requires St() == if IsReportable(s) && before.flow == UNREACHABLE_FLOW then before.(flow := REPORTED_UNREACHABLE_FLOW) else before
      modifies this
      ensures St() == BindDead(s, before)
      ensures Kept() == old(Kept())
      decreases s, 2
    {
      hide Valid, Dead, Wrapping, Kept, IsUnreachable;
      match s {
        case Block(_, ss) => BindEachUnreachable(ss);
        case If(_, _, a, b) =>
          BindUnreachableInner(a);
          if b.Some? {
            BindUnreachableInner(b.value);
          }
        case While(_, _, body) => BindUnreachableInner(body);
        case Do(_, body, _) => BindUnreachableInner(body);
        case For(_, _, _, _, body) => BindUnreachableInner(body);
        case ForOf(_, _, _, body) => BindUnreachableInner(body);
        case Labeled(_, _, body) => BindUnreachableInner(body);
        case Switch(_, _, clauses) => BindEachUnreachableClause(clauses);
        case Try(_, b, h, f) =>
          BindEachUnreachable(b);
          if h.SomeBlock? {
            BindEachUnreachable(h.statements);
          }
          if f.SomeBlock? {
            BindEachUnreachable(f.statements);
          }
        case _ =>
      }
    }

    method BindUnreachableInner(s: Stmt)
      requires Valid(St()) && Dead(St())
      modifies this
      ensures St() == BindDead(s, old(St())) && Valid(St()) && Dead(St())
      ensures Kept() == old(Kept())
      decreases s, 6
    {
      hide Valid, Dead, BindStmt, BindDead, Wrapping, Kept, IsUnreachable;
      DeadStmt(s, Inner(Ctx()), St());
      BindInner(s);
    }

    method BindEachUnreachable(ss: seq<Stmt>)
      requires Valid(St()) && Dead(St())
      modifies this
      ensures St() == BindDeads(ss, old(St())) && Valid(St()) && Dead(St())
      ensures Kept() == old(Kept())
      decreases ss, 0
    {
      hide Valid, Dead, BindDead, Wrapping, Kept, IsUnreachable;
      var i := 0;
      while i < |ss|
        invariant 0 <= i <= |ss| && Valid(St()) && Dead(St()) && Kept() == old(Kept())
        invariant BindDeads(ss, old(St())) == BindDeads(ss[i..], St())
      {
        assert ss[i..][1..] == ss[i + 1..];
        BindUnreachableInner(ss[i]);
        i := i + 1;
      }
    }

    method BindEachUnreachableClause(clauses: seq<Clause>)
      requires Valid(St()) && Dead(St())
      modifies this
      ensures St() == BindDeadClauses(clauses, old(St())) && Valid(St()) && Dead(St())
      ensures Kept() == old(Kept())
      decreases clauses, 0
    {
      hide Valid, Dead, BindDeads, Wrapping, Kept, IsUnreachable;
      var i := 0;
      while i < |clauses|
        invariant 0 <= i <= |clauses| && Valid(St()) && Dead(St()) && Kept() == old(Kept())
        invariant BindDeadClauses(clauses, old(St())) == BindDeadClauses(clauses[i..], St())
      {
        assert clauses[i..][1..] == clauses[i + 1..];
        BindEachUnreachable(clauses[i].body);
        i := i + 1;
      }
    }

    // ----- functions -----

    /** A function starts with no targets and no labels, and leaves those around it as they were. */
    method BindFunctionContainer(s: Stmt)
      requires Valid(St()) && s.Function?
      modifies this
      ensures St() == BindContainer(s, old(St()))
      ensures Kept() == old(Kept())
      decreases s, 2
    {
      hide Valid, BindContainer, Wrapping;
      var saveCurrentFlow, saveHasExplicitReturn := currentFlow, hasExplicitReturn;
      var saveBreakTarget, saveContinueTarget, saveReturnTarget, saveExceptionTarget, saveActiveLabelList :=
        currentBreakTarget, currentContinueTarget, currentReturnTarget, currentExceptionTarget, activeLabelList;
      BindFunctionBody(s);
      currentFlow, hasExplicitReturn := saveCurrentFlow, saveHasExplicitReturn;
      currentBreakTarget, currentContinueTarget, currentReturnTarget, currentExceptionTarget, activeLabelList :=
        saveBreakTarget, saveContinueTarget, saveReturnTarget, saveExceptionTarget, saveActiveLabelList;
    }

    method BindFunctionBody(s: Stmt)
      requires Valid(St()) && s.Function?
      modifies this
      ensures St().(flow := old(currentFlow), explicitReturn := old(hasExplicitReturn)) == BindContainer(s, old(St()))
      ensures parents == old(parents) && preSwitchCaseFlow == old(preSwitchCaseFlow)
      ensures currentTrueTarget == old(currentTrueTarget) && currentFalseTarget == old(currentFalseTarget)
      decreases s, 1
    {
      hide Valid, BindBlock, BindContainer, LeaveContainer, Wrapping, Extends;
      ghost var s0, s1 := BodyStages(s, St());
      EnterFunction(s);
      assert St() == s0 && Inner(Ctx()) == ContainerContext(s, |old(graph)|);
      BindBlockStatements(s.statements);
      LeaveFunction(s, old(St()));
    }

    method EnterFunction(s: Stmt)
      requires s.Function?
      modifies this`graph, this`currentFlow, this`currentReturnTarget, this`currentExceptionTarget
      modifies this`currentBreakTarget, this`currentContinueTarget, this`activeLabelList, this`hasExplicitReturn
      ensures St() == NewLabels(old(St()), if s.isConstructor then [Start, BranchLabel([])] else [Start])
                      .(flow := |old(graph)|, explicitReturn := false)
      ensures Inner(Ctx()) == ContainerContext(s, |old(graph)|)
      ensures currentReturnTarget == if s.isConstructor then Some(|old(graph)| + 1) else None
    {
      currentFlow := NewFlowNode(Start);
      if s.isConstructor {
        var returnLabel := NewFlowNode(BranchLabel([]));
        currentReturnTarget := Some(returnLabel);
      } else {
        currentReturnTarget := None;
      }
      assert graph == old(graph) + (if s.isConstructor then [Start, BranchLabel([])] else [Start]);
      currentExceptionTarget, currentBreakTarget, currentContinueTarget, activeLabelList, hasExplicitReturn := None, None, None, [], false;
    }

    /** What is recorded at the end of a function. */
    method LeaveFunction(s: Stmt, ghost before: State)
      requires s.Function? && currentReturnTarget == if s.isConstructor then Some(|before.graph| + 1) else None
      modifies this`graph, this`marks, this`currentFlow, this`sealed
      ensures St().(flow := before.flow, explicitReturn := before.explicitReturn) == LeaveContainer(s, before, old(St()))
    {
      hide AddAntecedent, FinishFlowLabel;
      if !IsUnreachable(graph, currentFlow) {
        marks := marks + {HasImplicitReturn(s.id), EndFlow(s.id, currentFlow)}
                 + (if hasExplicitReturn then {HasExplicitReturn(s.id)} else {});
      }
      if currentReturnTarget.Some? {
        AddAntecedentTo(currentReturnTarget.value, currentFlow);
        currentFlow := FinishLabel(currentReturnTarget.value);
        marks := marks + {ReturnFlow(s.id, currentFlow)};
      }
    }

    // ----- try -----

    /** The return and exception targets of the parts before the finally block are labels of their own. */
    method BindTryStatement(s: Stmt)
      requires Valid(St()) && s.Try?
      modifies this
      ensures St() == BindLive(s, old(Ctx()), old(St()))
      ensures Kept() == old(Kept())
      decreases s, 2
    {
      hide Valid, BindGuarded, BindBlock, LeaveFinally, FinishFlowLabel, Wrapping;
      var normalExitLabel, returnLabel, exceptionLabel := BindGuardedBlocks(s);
      if s.finalizer.SomeBlock? {
        BindFinallyBlock(s, old(Ctx()), old(St()), normalExitLabel, returnLabel, exceptionLabel);
      } else {
        currentFlow := FinishLabel(normalExitLabel);
      }
    }

    method BindGuardedBlocks(s: Stmt) returns (normalExitLabel: FlowId, returnLabel: FlowId, exceptionLabel: FlowId)
      requires Valid(St()) && s.Try?
      modifies this
      ensures normalExitLabel == |old(graph)| && returnLabel == |old(graph)| + 1
      ensures Guarded(St(), exceptionLabel) == BindGuarded(s, old(Inner(Ctx())), old(St()))
      ensures Kept() == old(Kept())
      decreases s, 1
    {
      hide Valid, BindBlock, FinishFlowLabel, AddAntecedent, Wrapping, Extends;
      ghost var g0, e0, t, s1 := TryBlockStages(s, Inner(Ctx()), St());
      var saveReturnTarget, saveExceptionTarget := currentReturnTarget, currentExceptionTarget;
      normalExitLabel, returnLabel, exceptionLabel := CreateBranchLabels();
      if s.finalizer.SomeBlock? {
        currentReturnTarget := Some(returnLabel);
      }
      AddAntecedentTo(exceptionLabel, currentFlow);
      currentExceptionTarget := Some(exceptionLabel);
      BindBlockStatements(s.block);
      AddAntecedentTo(normalExitLabel, currentFlow);
      assert St() == s1;
      if s.handler.SomeBlock? {
        exceptionLabel := BindCatchClause(s, old(Inner(Ctx())), old(St()), exceptionLabel, normalExitLabel);
      }
      currentReturnTarget, currentExceptionTarget := saveReturnTarget, saveExceptionTarget;
    }

    /** The catch clause acts like a second try block: its exceptions go to a new label. */
    method BindCatchClause(s: Stmt, ghost ctx: Context, ghost before: State, caught: FlowId, normalExitLabel: FlowId)
      returns (exceptionLabel: FlowId)
      requires s.Try? && s.handler.SomeBlock? && Valid(St()) && St() == BindTryBlock(s, ctx, before)
      requires caught == |before.graph| + 2 && normalExitLabel == |before.graph|
      requires forall x :: Inner(Ctx()).(exceptionTarget := Some(x)) == TryContext(s, ctx, |before.graph| + 1, x)
      modifies this
      ensures Guarded(St(), exceptionLabel) == BindGuarded(s, ctx, before)
      ensures Kept() == old(Kept()).(exceptionTarget := Some(exceptionLabel))
      decreases s, 0
    {
      hide Valid, BindBlock, FinishFlowLabel, AddAntecedent, Wrapping, BindTryBlock, Extends;
      ghost var c0, c1, e, t, s2 := HandlerStages(s, ctx, before, St());
      currentFlow := FinishLabel(caught);
      exceptionLabel := NewFlowNode(BranchLabel([]));
      AddAntecedentTo(exceptionLabel, currentFlow);
      currentExceptionTarget := Some(exceptionLabel);
      BindBlockStatements(s.handler.statements);
      AddAntecedentTo(normalExitLabel, currentFlow);
    }

    method BindFinallyBlock(s: Stmt, ghost ctx: Context, ghost before: State,
                            normalExitLabel: FlowId, returnLabel: FlowId, exceptionLabel: FlowId)
      requires s.Try? && s.finalizer.SomeBlock? && Valid(before) && Ctx() == ctx
      requires normalExitLabel == |before.graph| && returnLabel == |before.graph| + 1
      requires Guarded(St(), exceptionLabel) == BindGuarded(s, Inner(ctx), before)
      modifies this
      ensures St() == BindTry(s, Inner(ctx), before)
      ensures Kept() == old(Kept())
      decreases s, 1
    {
      hide Valid, BindGuarded, BindTry, BindBlock, LeaveFinally, Wrapping, Extends;
      ghost var g, s2, s3 := TryStages(s, Inner(ctx), before);
      var normalList, exceptionList, returnList :=
        Antecedents(graph, normalExitLabel), Antecedents(graph, exceptionLabel), Antecedents(graph, returnLabel);
      sealed := sealed + {SealedLabel(normalExitLabel, normalList)} + {SealedLabel(exceptionLabel, exceptionList)}
                + {SealedLabel(returnLabel, returnList)};
      var finallyLabel := NewFlowNode(FinallyLabel(normalList + (exceptionList + returnList)));
      currentFlow := finallyLabel;
      assert St() == s2;
      BindBlockStatements(s.finalizer.statements);
      LeaveFinallyBlock(finallyLabel, normalList, exceptionList, returnList);
    }

    /** Past a finally block the graph goes back through its normal, exceptional or returning entries only. */
    method LeaveFinallyBlock(finallyLabel: FlowId, normalList: seq<FlowId>, exceptionList: seq<FlowId>,
                             returnList: seq<FlowId>)
      modifies this`graph, this`currentFlow
      ensures St() == LeaveFinally(Inner(Ctx()), old(St()), finallyLabel, normalList, exceptionList, returnList)
    {
      hide AddAntecedent;
      if IsUnreachable(graph, currentFlow) {
        currentFlow := UNREACHABLE_FLOW;
      } else {
        AddReducedFlow(currentReturnTarget, finallyLabel, returnList);
        AddReducedFlow(currentExceptionTarget, finallyLabel, exceptionList);
        if normalList != [] {
          currentFlow := NewFlowNode(ReduceLabel(finallyLabel, normalList, currentFlow));
        } else {
          currentFlow := UNREACHABLE_FLOW;
        }
      }
    }

    method AddReducedFlow(target: Option<FlowId>, finallyLabel: FlowId, list: seq<FlowId>)
      modifies this`graph
      ensures St() == AddReduced(old(St()), target, finallyLabel, list)
    {
      if target.Some? && list != [] {
        var reduced := NewFlowNode(ReduceLabel(finallyLabel, list, currentFlow));
        AddAntecedentTo(target.value, reduced);
      }
    }

    // ----- switch -----

    method BindSwitchStatement(s: Stmt)
      requires Valid(St()) && s.Switch?
      modifies this
      ensures St() == BindLive(s, old(Ctx()), old(St()))
      ensures Kept() == old(Kept())
      decreases s, 2
    {
      hide Valid, BindExpr, BindClauses, BindDeadClauses, FinishFlowLabel, AddAntecedent, Wrapping, Outer, Extends,
           HasDefault, Dead, IsUnreachable;
      ghost var s0, s1 := SwitchStages(s, Ctx(), St());
      var postSwitchLabel := NewFlowNode(BranchLabel([]));
      BindChild(OtherFrame, s.expr);
      BindSwitchClauses(s, postSwitchLabel);
    }

    /** Breaks out of the clauses go to the label after the switch. */
    method BindSwitchClauses(s: Stmt, postSwitchLabel: FlowId)
      requires Valid(St()) && s.Switch?
      modifies this
      ensures var ctx, s1 := old(Inner(Ctx())).(breakTarget := Some(postSwitchLabel)), old(St());
              var s2 := if Dead(s1) then BindDeadClauses(s.clauses, s1)
                        else BindClauses(s, s.clauses, 0, s1.flow, UNREACHABLE_FLOW, ctx, s1);
              St() == Resume(SwitchEnd(s, s1.flow, postSwitchLabel, s2), postSwitchLabel)
      ensures Kept() == old(Kept())
      decreases s, 1, 1
    {
      hide Valid, BindClauses, BindDeadClauses, Resume, SwitchEnd, Wrapping, HasDefault, Dead, IsUnreachable;
      var saveBreakTarget, savePreSwitchCaseFlow := currentBreakTarget, preSwitchCaseFlow;
      currentBreakTarget, preSwitchCaseFlow := Some(postSwitchLabel), currentFlow;
      BindCaseBlock(s);
      LeaveSwitch(s, postSwitchLabel);
      currentBreakTarget, preSwitchCaseFlow := saveBreakTarget, savePreSwitchCaseFlow;
      currentFlow := FinishLabel(postSwitchLabel);
    }

    method LeaveSwitch(s: Stmt, postSwitchLabel: FlowId)
      requires s.Switch?
      modifies this`graph
      ensures St() == SwitchEnd(s, preSwitchCaseFlow, postSwitchLabel, old(St()))
    {
      hide AddAntecedent;
      AddAntecedentTo(postSwitchLabel, currentFlow);
      if !HasDefault(s.clauses) {
        var noCase := NewFlowNode(SwitchClause(s.id, 0, 0, preSwitchCaseFlow));
        AddAntecedentTo(postSwitchLabel, noCase);
      }
    }

    method BindCaseBlock(s: Stmt)
      requires Valid(St()) && s.Switch? && preSwitchCaseFlow == currentFlow
      modifies this
      ensures St() == if Dead(old(St())) then BindDeadClauses(s.clauses, old(St()))
                      else BindClauses(s, s.clauses, 0, old(currentFlow), UNREACHABLE_FLOW, old(Inner(Ctx())), old(St()))
      ensures Kept() == old(Kept())
      decreases s, 1, 0
    {
      hide Valid, BindClauses, BindDeadClauses, Wrapping;
      if IsUnreachable(graph, currentFlow) {
        BindEachUnreachableClause(s.clauses);
      } else {
        FlowInRange(St());
        BindReachableClauses(s);
      }
    }

    /** Clauses without statements share the label of the first clause after them that has some. */
    method BindReachableClauses(s: Stmt)
      requires Valid(St()) && s.Switch? && preSwitchCaseFlow < |graph|
      modifies this
      ensures St() == BindClauses(s, s.clauses, 0, old(preSwitchCaseFlow), UNREACHABLE_FLOW, old(Inner(Ctx())), old(St()))
      ensures Kept() == old(Kept())
      decreases s, 0
    {
      hide Valid, BindClause, EnterGroup, Wrapping;
      ghost var ctx, pre := Inner(Ctx()), preSwitchCaseFlow;
      var fallthroughFlow: FlowId := UNREACHABLE_FLOW;
      var i: nat := 0;
      while i < |s.clauses|
        invariant 0 <= i <= |s.clauses| && Valid(St()) && Kept() == old(Kept()) && Inner(Ctx()) == ctx
        invariant pre < |graph| && fallthroughFlow < |graph|
        invariant BindClauses(s, s.clauses, 0, pre, UNREACHABLE_FLOW, ctx, old(St()))
               == BindClauses(s, s.clauses[i..], i, pre, fallthroughFlow, ctx, St())
      {
        var clauseStart := i;
        i := BindEmptyClauses(s, i, fallthroughFlow);
        assert s.clauses[i..][1..] == s.clauses[i + 1..];
        ghost var before := St();
        EnterCase(s, clauseStart, i + 1, fallthroughFlow);
        assert Valid(St()) && pre < |graph| by {
          EnterGroupGrows(s, clauseStart, i + 1, pre, fallthroughFlow, before);
          GrowsExtends({}, before, St());
        }
        ghost var entered := St();
        BindCaseOrDefaultClause(s.clauses[i]);
        assert Valid(St()) && currentFlow < |graph| && pre < |graph| by {
          ClauseGrows(s.clauses[i], pre, ctx, entered);
          GrowsExtends(Targets(ctx), entered, St());
          FlowInRange(St());
        }
        fallthroughFlow := currentFlow;
        i := i + 1;
      }
    }

    /** The clauses without statements from clause `start`, up to the last clause. */
    method BindEmptyClauses(s: Stmt, start: nat, fallthroughFlow: FlowId) returns (i: nat)
      requires Valid(St()) && s.Switch? && start < |s.clauses| && preSwitchCaseFlow < |graph|
      requires fallthroughFlow < |graph|
      modifies this
      ensures start <= i < |s.clauses| && (s.clauses[i].body != [] || i == |s.clauses| - 1)
      ensures Valid(St()) && preSwitchCaseFlow < |graph| && fallthroughFlow < |graph| && Kept() == old(Kept())
      ensures BindClauses(s, s.clauses[start..], start, preSwitchCaseFlow, fallthroughFlow, old(Inner(Ctx())), old(St()))
           == BindClauses(s, s.clauses[i..], start, preSwitchCaseFlow, fallthroughFlow, old(Inner(Ctx())), St())
      decreases s, 0, 1
    {
      hide Valid, BindClause, EnterGroup, Wrapping;
      ghost var ctx, pre := Inner(Ctx()), preSwitchCaseFlow;
      i := start;
      while s.clauses[i].body == [] && i + 1 < |s.clauses|
        invariant start <= i < |s.clauses| && Valid(St()) && Kept() == old(Kept()) && Inner(Ctx()) == ctx
        invariant pre < |graph| && fallthroughFlow < |graph|
        invariant BindClauses(s, s.clauses[start..], start, pre, fallthroughFlow, ctx, old(St()))
               == BindClauses(s, s.clauses[i..], start, pre, fallthroughFlow, ctx, St())
      {
        assert s.clauses[i..][1..] == s.clauses[i + 1..];
        ghost var before := St();
        if fallthroughFlow == UNREACHABLE_FLOW {
          currentFlow := preSwitchCaseFlow;
        }
        assert Valid(St()) by {
          FlowInRange(before);
          MoveGrows(before, St());
        }
        ghost var entered := St();
        BindCaseOrDefaultClause(s.clauses[i]);
        assert Valid(St()) && |entered.graph| <= |graph| by {
          ClauseGrows(s.clauses[i], pre, ctx, entered);
          GrowsExtends(Targets(ctx), entered, St());
        }
        i := i + 1;
      }
    }

    method EnterCase(s: Stmt, start: nat, end: nat, fallthroughFlow: FlowId)
      requires s.Switch?
      modifies this`graph, this`currentFlow, this`sealed
      ensures St() == EnterGroup(s, start, end, preSwitchCaseFlow, fallthroughFlow, old(St()))
    {
      hide AddAntecedent, FinishFlowLabel;
      var preCaseLabel := NewFlowNode(BranchLabel([]));
      var preCaseFlow := preSwitchCaseFlow;
      if IsNarrowingSwitch(s.expr) {
        preCaseFlow := NewFlowNode(SwitchClause(s.id, start, end, preSwitchCaseFlow));
      }
      AddAntecedentTo(preCaseLabel, preCaseFlow);
      AddAntecedentTo(preCaseLabel, fallthroughFlow);
      currentFlow := FinishLabel(preCaseLabel);
    }

    /** The test is bound from the flow before the clauses. */
    method BindCaseOrDefaultClause(c: Clause)
      requires Valid(St()) && preSwitchCaseFlow < |graph|
      modifies this
      ensures St() == BindClause(c, preSwitchCaseFlow, old(Inner(Ctx())), old(St()))
      ensures Kept() == old(Kept())
      decreases c, 4
    {
      hide Valid, BindDeads, BindEach, BindExpr, Wrapping;
      if IsUnreachable(graph, currentFlow) {
        BindEachUnreachable(c.body);
        return;
      }
      ghost var before := St();
      if c.test.Some? {
        var saveCurrentFlow := currentFlow;
        currentFlow := preSwitchCaseFlow;
        ghost var moved := St();
        BindChild(OtherFrame, c.test.value);
        ghost var bound := St();
        currentFlow := saveCurrentFlow;
        assert Valid(St()) by {
          MoveGrows(before, moved);
          ExprGrows(c.test.value, AsValue, currentExceptionTarget, moved);
          GrowsExtends(ModeTargets(AsValue) + Optional(currentExceptionTarget), moved, bound);
          FlowInRange(before);
          MoveGrows(bound, St());
        }
      }
      BindEachStatement(c.body);
    }
  }

  predicate Alive(g: Graph, f: FlowId) {
    f < |g| && !IsUnreachable(g, f)
  }

  /** A backward walk from a flow that is recorded on a node to the start of the first function. */
  ghost predicate Recorded(st: State, k: FlowEvidence.Trail) {
    && FlowAt(k.id, k.from) in st.marks && k.w.graph == st.graph && k.w.start == |INITIAL.graph|
    && Walks.IsWalk(k.w, k.from, map[], k.path)
  }

  lemma OneFunction(s: Stmt, k: FlowEvidence.Trail)
    requires s.Function? && FlowEvidence.Distinct(s) && Recorded(BindContainer(s, INITIAL), k)
    ensures FlowEvidence.Guided(FlowEvidence.GuardsOnSeq(s.statements, k.id), k)
  {
    hide BindContainer, Walks.IsWalk, FlowEvidence.GuardsOnSeq, FlowEvidence.Distinct, FlowEvidence.Evident;
    if k.id in FlowMarks.Ids(s) {
      assert BindFunctions([s], INITIAL) == BindContainer(s, INITIAL) && [s][..0] == [] && [s][1..] == [];
      FlowEvidence.GuardsEvident([s], 0, k);
    } else {
      FlowEvidence.NoGuards(s.statements, k.id);
    }
  }

  /** What the binder records about a function holds of every run of the function: a statement that a run
      reaches has a reachable flow, and a body that a run completes has an implicit return. For a plain
      function the converse holds, too. Every label that was completed still has the antecedents it had
      then, and every walk from a recorded flow shows what guards the statement. */
  method BindFunction(s: Stmt) returns (b: Binder)
    requires s.Function?
    ensures b.St() == BindContainer(s, INITIAL)
    ensures forall choices :: Body(s, choices).outcome.Reached? ==>
              exists f: FlowId :: FlowAt(Body(s, choices).outcome.id, f) in b.marks && Alive(b.graph, f)
    ensures forall choices :: Body(s, choices).outcome.Completed? ==> HasImplicitReturn(s.id) in b.marks
    ensures SealsHold(b.St())
    ensures forall id, f :: PlainFunction(s, id) && FlowAt(id, f) in b.marks ==>
              exists choices :: Body(s, choices).outcome == Reached(id)
    ensures PlainFunction(s, s.id) && HasImplicitReturn(s.id) in b.marks ==>
              exists choices :: Body(s, choices).outcome.Completed?
    ensures forall k: FlowEvidence.Trail :: FlowEvidence.Distinct(s) && Recorded(b.St(), k) ==>
              FlowEvidence.Guided(FlowEvidence.GuardsOnSeq(s.statements, k.id), k)
  {
    hide BindContainer, Body, IsUnreachable, Valid, PlainFunction;
    InitialValid();
    NothingSealed();
    ContainerSeals(s, INITIAL);
    b := new Binder();
    b.BindFunctionContainer(s);
    forall choices | Body(s, choices).outcome.Reached?
      ensures exists f: FlowId :: FlowAt(Body(s, choices).outcome.id, f) in b.marks && Alive(b.graph, f)
    {
      var f := ReachabilitySoundness(s, INITIAL, choices);
    }
    forall choices | Body(s, choices).outcome.Completed?
      ensures HasImplicitReturn(s.id) in b.marks
    {
      ImplicitReturn(s, INITIAL, choices);
    }
    forall id, f | PlainFunction(s, id) && FlowAt(id, f) in b.marks
      ensures exists choices :: Body(s, choices).outcome == Reached(id)
    {
      ReachabilityExact(s, INITIAL, id);
    }
    if PlainFunction(s, s.id) {
      ImplicitReturnExact(s, INITIAL);
    }
    forall k: FlowEvidence.Trail | FlowEvidence.Distinct(s) && Recorded(b.St(), k)
      ensures FlowEvidence.Guided(FlowEvidence.GuardsOnSeq(s.statements, k.id), k)
    {
      OneFunction(s, k);
    }
  }
}
