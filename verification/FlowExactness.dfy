/** The other direction of reachability: for plain functions, what the graph takes for reachable is reached
    by some run. */
module FlowExactness {
  import opened Wrappers
  import opened Syntax
  import opened FlowGraph
  import opened FlowBuilder
  import opened FlowGrowth
  import opened FlowMarks
  import opened Execution
  import opened Limits
  import opened ExprSoundness
  import opened StmtSoundness
  import opened FlowTheorems

  // ----- evaluations that are possible -----

  ghost predicate EvalEnds(e: Expr, truthy: bool, c: seq<Choice>, past: seq<Event>, rest: seq<Choice>) {
    var r := Eval(e, Machine(past, c + rest));
    r.outcome == Value(truthy) && r.machine.future == rest
  }

  /** With these choices the evaluation has that value, whatever was before and whatever comes after. */
  ghost predicate EvalsBy(e: Expr, truthy: bool, c: seq<Choice>) {
    forall past, rest :: EvalEnds(e, truthy, c, past, rest)
  }

  ghost predicate CanEval(e: Expr, truthy: bool) {
    exists c :: EvalsBy(e, truthy, c)
  }

  lemma ConcludeEnds(e: Expr, forced: Option<bool>, truthy: bool, past: seq<Event>, rest: seq<Choice>)
    requires forced.Some? ==> forced.value == truthy
    ensures var r := Conclude(e, forced, Machine(past, [if truthy then Yes else No] + rest));
            r.outcome == Value(truthy) && r.machine.future == rest
  {
  }

  /** One operand, and what is concluded from it. */
  lemma OneOperand(e: Expr, x: Expr, b: bool, c: seq<Choice>, truthy: bool)
    requires EvalsBy(x, b, c)
    requires match e
             case Paren(y) => x == y && truthy == b
             case Not(y) => x == y && truthy == !b
             case Logical(op, l, _) => x == l && Decides(op, b) && truthy == b
             case Call(_, _, a) => x == a
             case Assign(_, _, r) => x == r && truthy == b
             case _ => false
    ensures CanEval(e, truthy)
  {
    hide Conclude;
    var all := c + [if truthy then Yes else No];
    forall past, rest
      ensures EvalEnds(e, truthy, all, past, rest)
    {
      var tail := [if truthy then Yes else No] + rest;
      assert all + rest == c + tail;
      assert EvalEnds(x, b, c, past, tail);
      var r := Eval(x, Machine(past, c + tail));
      var p := if e.Assign? then r.machine.past + [Assigned(e.target)] else r.machine.past;
      ConcludeEnds(e, if e.Call? then None else Some(truthy), truthy, p, rest);
      assert Eval(e, Machine(past, c + tail)) == Conclude(e, if e.Call? then None else Some(truthy), Machine(p, tail));
    }
    assert EvalsBy(e, truthy, all);
  }

  /** Two operands. */
  lemma TwoOperands(e: Expr, x: Expr, b: bool, c: seq<Choice>, y: Expr, b': bool, c': seq<Choice>, truthy: bool)
    requires EvalsBy(x, b, c) && EvalsBy(y, b', c')
    requires match e
             case Logical(op, l, r) => x == l && y == r && !Decides(op, b) && truthy == b'
             case Binary(op, l, r) => x == l && y == r && (op.Comma? ==> truthy == b')
             case Conditional(t, p, q) => x == t && y == (if b then p else q) && truthy == b'
             case _ => false
    ensures CanEval(e, truthy)
  {
    hide Conclude;
    var all := c + c' + [if truthy then Yes else No];
    forall past, rest
      ensures EvalEnds(e, truthy, all, past, rest)
    {
      var last := [if truthy then Yes else No] + rest;
      var tail := c' + last;
      assert all + rest == c + tail;
      assert EvalEnds(x, b, c, past, tail);
      var r := Eval(x, Machine(past, c + tail));
      assert EvalEnds(y, b', c', r.machine.past, last);
      var r' := Eval(y, Machine(r.machine.past, c' + last));
      ConcludeEnds(e, if e.Binary? && !e.operator.Comma? then None else Some(truthy), truthy, r'.machine.past, rest);
    }
    assert EvalsBy(e, truthy, all);
  }

  /** A logical assignment whose target settles it, or whose right operand is evaluated. */
  lemma LogicalAssignment(e: Expr, b: bool, c: seq<Choice>)
    requires e.LogicalAssign? && EvalsBy(e.right, b, c)
    ensures CanEval(e, b) && CanEval(e, e.op.BarBar?)
  {
    hide Conclude;
    var settled := e.op.BarBar?;
    var tested, go := if settled then Yes else No, if settled then No else Yes;
    var skip, all := [tested] + [tested], [go] + c + [if b then Yes else No];
    forall past, rest
      ensures EvalEnds(e, settled, skip, past, rest)
    {
      assert skip + rest == [tested] + ([tested] + rest);
      ConcludeEnds(Target(e), None, settled, past, [tested] + rest);
      var p := Conclude(Target(e), None, Machine(past, [tested] + ([tested] + rest))).machine.past;
      ConcludeEnds(e, Some(settled), settled, p, rest);
    }
    assert EvalsBy(e, settled, skip);
    forall past, rest
      ensures EvalEnds(e, b, all, past, rest)
    {
      var last := [if b then Yes else No] + rest;
      assert all + rest == [go] + (c + last);
      ConcludeEnds(Target(e), None, !settled, past, c + last);
      var p := Conclude(Target(e), None, Machine(past, [go] + (c + last))).machine.past;
      assert EvalEnds(e.right, b, c, p, last);
      var r := Eval(e.right, Machine(p, c + last));
      ConcludeEnds(e, Some(b), b, r.machine.past + [Assigned(e.target)], rest);
      assert EvalAssigned(e, Machine(p, c + last)) == Conclude(e, Some(b), Machine(r.machine.past + [Assigned(e.target)], last));
      assert Eval(e, Machine(past, [go] + (c + last))) == EvalAssigned(e, Machine(p, c + last));
    }
    assert EvalsBy(e, b, all);
  }

  lemma Leaf(e: Expr, truthy: bool)
    requires e.Ident? || e.Opaque? || (e.TrueLiteral? && truthy) || (e.FalseLiteral? && !truthy)
    ensures CanEval(e, truthy)
  {
    var c := [if truthy then Yes else No];
    forall past, rest
      ensures EvalEnds(e, truthy, c, past, rest)
    {
      ConcludeEnds(e, if e.Ident? || e.Opaque? then None else Some(truthy), truthy, past, rest);
    }
    assert EvalsBy(e, truthy, c);
  }

  /** Every expression can be evaluated. */
  lemma {:induction false} AnyValue(e: Expr) returns (b: bool)
    ensures CanEval(e, b)
    decreases e
  {
    hide EvalsBy;
    match e
    case Ident(_, _) =>
      b := true;
      Leaf(e, b);
    case Opaque(_) =>
      b := true;
      Leaf(e, b);
    case TrueLiteral =>
      b := true;
      Leaf(e, b);
    case FalseLiteral =>
      b := false;
      Leaf(e, b);
    case Paren(x) =>
      b := AnyValue(x);
      var c :| EvalsBy(x, b, c);
      OneOperand(e, x, b, c, b);
    case Not(x) =>
      var v := AnyValue(x);
      var c :| EvalsBy(x, v, c);
      b := !v;
      OneOperand(e, x, v, c, b);
    case Logical(op, l, r) =>
      var v := AnyValue(l);
      var c :| EvalsBy(l, v, c);
      if Decides(op, v) {
        b := v;
        OneOperand(e, l, v, c, b);
      } else {
        b := AnyValue(r);
        var c' :| EvalsBy(r, b, c');
        TwoOperands(e, l, v, c, r, b, c', b);
      }
    case LogicalAssign(_, _, _, r) =>
      b := AnyValue(r);
      var c :| EvalsBy(r, b, c);
      LogicalAssignment(e, b, c);
    case Assign(_, _, r) =>
      b := AnyValue(r);
      var c :| EvalsBy(r, b, c);
      OneOperand(e, r, b, c, b);
    case Conditional(t, x, y) =>
      var v := AnyValue(t);
      var c :| EvalsBy(t, v, c);
      b := AnyValue(if v then x else y);
      var c' :| EvalsBy(if v then x else y, b, c');
      TwoOperands(e, t, v, c, if v then x else y, b, c', b);
    case Binary(_, l, r) =>
      var v := AnyValue(l);
      var c :| EvalsBy(l, v, c);
      b := AnyValue(r);
      var c' :| EvalsBy(r, b, c');
      TwoOperands(e, l, v, c, r, b, c', b);
    case Call(_, _, x) =>
      b := AnyValue(x);
      var c :| EvalsBy(x, b, c);
      OneOperand(e, x, b, c, b);
  }

  /** Nothing in the expression fixes its truth value. */
  predicate Free(e: Expr) {
    match e
    case Ident(_, _) => true
    case Opaque(_) => true
    case Call(_, _, _) => true
    case TrueLiteral => false
    case FalseLiteral => false
    case Paren(x) => Free(x)
    case Not(x) => Free(x)
    case Logical(_, l, r) => Free(l) && Free(r)
    case LogicalAssign(_, _, _, r) => Free(r)
    case Assign(_, _, r) => Free(r)
    case Conditional(_, x, y) => Free(x) && Free(y)
    case Binary(op, _, r) => op.Comma? ==> Free(r)
  }

  /** A free expression can be true and can be false. */
  lemma {:induction false} FreeEither(e: Expr, b: bool)
    requires Free(e)
    ensures CanEval(e, b)
    decreases e
  {
    hide EvalsBy;
    match e
    case Ident(_, _) => Leaf(e, b);
    case Opaque(_) => Leaf(e, b);
    case Paren(x) =>
      FreeEither(x, b);
      var c :| EvalsBy(x, b, c);
      OneOperand(e, x, b, c, b);
    case Not(x) =>
      FreeEither(x, !b);
      var c :| EvalsBy(x, !b, c);
      OneOperand(e, x, !b, c, b);
    case Logical(op, l, r) =>
      FreeLogical(e, b);
    case LogicalAssign(_, _, _, r) =>
      FreeEither(r, b);
      var c :| EvalsBy(r, b, c);
      LogicalAssignment(e, b, c);
    case Assign(_, _, r) =>
      FreeEither(r, b);
      var c :| EvalsBy(r, b, c);
      OneOperand(e, r, b, c, b);
    case Conditional(t, x, y) =>
      var v := AnyValue(t);
      var c :| EvalsBy(t, v, c);
      FreeEither(if v then x else y, b);
      var c' :| EvalsBy(if v then x else y, b, c');
      TwoOperands(e, t, v, c, if v then x else y, b, c', b);
    case Binary(op, l, r) =>
      var v := AnyValue(l);
      var c :| EvalsBy(l, v, c);
      var v' := b;
      if op.Comma? {
        FreeEither(r, b);
      } else {
        v' := AnyValue(r);
      }
      var c' :| EvalsBy(r, v', c');
      TwoOperands(e, l, v, c, r, v', c', b);
    case Call(_, _, x) =>
      var v := AnyValue(x);
      var c :| EvalsBy(x, v, c);
      OneOperand(e, x, v, c, b);
  }

  lemma {:induction false} FreeLogical(e: Expr, b: bool)
    requires e.Logical? && Free(e)
    ensures CanEval(e, b)
    decreases e, 0
  {
    hide EvalsBy;
    if Decides(e.op, b) {
      FreeEither(e.left, b);
      var c :| EvalsBy(e.left, b, c);
      OneOperand(e, e.left, b, c, b);
    } else {
      FreeEither(e.left, b);
      var c :| EvalsBy(e.left, b, c);
      FreeEither(e.right, b);
      var c' :| EvalsBy(e.right, b, c');
      TwoOperands(e, e.left, b, c, e.right, b, c', b);
    }
  }

  // ----- labels that gain antecedents -----

  ghost predicate Gained(g: Graph, h: Graph, t: FlowId) {
    exists x :: x in Antecedents(h, t) && x !in Antecedents(g, t)
  }

  lemma GainedTrans(g: Graph, h: Graph, k: Graph, t: FlowId)
    requires Gained(g, k, t)
    ensures Gained(g, h, t) || Gained(h, k, t)
  {
  }

  lemma GainedTarget(targets: set<FlowId>, a: State, b: State, t: FlowId)
    requires Grows(targets, a, b) && t < |a.graph| && Gained(a.graph, b.graph, t)
    ensures t in targets
  {
  }

  /** The flow goes on from a completed label only if the label has gained an antecedent since it was new. */
  lemma ResumedGained(a: Graph, st: State, join: FlowId)
    requires Valid(st) && Antecedents(a, join) == [] && !Dead(Resume(st, join))
    ensures Gained(a, st.graph, join)
  {
    var list := Antecedents(st.graph, join);
    if list != [] {
      assert list[0] in list;
    }
  }

  lemma JoinGained(st: State, join: FlowId, from: FlowId, t: FlowId)
    requires Gained(st.graph, JoinFrom(st, join, from).graph, t)
    ensures t == join && !IsUnreachable(st.graph, from)
  {
  }

  lemma JoinAlive(st: State, join: FlowId, t: FlowId)
    requires Gained(st.graph, Join(st, join).graph, t)
    ensures t == join && !Dead(st)
  {
  }

  lemma NewGainsNothing(st: State, nodes: seq<FlowNode>, t: FlowId)
    requires t < |st.graph|
    ensures !Gained(st.graph, NewLabels(st, nodes).graph, t)
  {
  }

  lemma DeadCondition(e: Expr, t: FlowId, f: FlowId, exc: Option<FlowId>, st: State)
    requires Dead(st)
    ensures BindCondition(e, t, f, exc, st) == st
  {
  }

  // ----- conditions -----

  /** A condition of which nothing is fixed that the graph does not see: literals may stand alone or as
      operands of `&&` and `||`. */
  predicate Open(e: Expr) {
    match e
    case TrueLiteral => true
    case FalseLiteral => true
    case Logical(_, l, r) => Open(l) && Open(r)
    case Paren(x) => if IsLogicalExpression(x) then Open(x) else Free(e)
    case Not(x) => if IsLogicalExpression(x) then Open(x) else Free(e)
    case _ => Free(e)
  }

  /** The exception target is none of the two, and no label still to come. */
  predicate Outside(exc: Option<FlowId>, t: FlowId, f: FlowId, st: State) {
    exc.Some? ==> exc.value != t && exc.value != f && exc.value < |st.graph|
  }

  function TargetFor(b: bool, t: FlowId, f: FlowId): FlowId {
    if b then t else f
  }

  /** A target that a condition leads to is reached by an evaluation. */
  lemma {:induction false} ConditionExact(e: Expr, t: FlowId, f: FlowId, exc: Option<FlowId>, st: State, b: bool)
    requires Valid(st) && Open(e) && t < |st.graph| && f < |st.graph| && t != f && Outside(exc, t, f, st)
    requires Gained(st.graph, BindCondition(e, t, f, exc, st).graph, TargetFor(b, t, f))
    ensures CanEval(e, b)
    decreases e
  {
    hide Gained, Valid, BindExpr, CanEval, AddAntecedent, AddConditions;
    if Free(e) {
      FreeEither(e, b);
    } else if Dead(st) {
      DeadCondition(e, t, f, exc, st);
      NoGain(st.graph, TargetFor(b, t, f));
    } else {
      match e
      case TrueLiteral => LiteralExact(e, t, f, exc, st, b);
      case FalseLiteral => LiteralExact(e, t, f, exc, st, b);
      case Paren(x) =>
        SameCondition(e, t, f, exc, st);
        ConditionExact(x, t, f, exc, st, b);
        Wrapped(e, x, b, b);
      case Not(x) =>
        SameCondition(e, t, f, exc, st);
        ConditionExact(x, f, t, exc, st, !b);
        Wrapped(e, x, !b, b);
      case Logical(_, _, _) => LogicalExact(e, t, f, exc, st, b);
    }
  }

  lemma NoGain(g: Graph, t: FlowId)
    ensures !Gained(g, g, t)
  {
  }

  lemma Wrapped(e: Expr, x: Expr, v: bool, b: bool)
    requires (e == Paren(x) && v == b) || (e == Not(x) && v == !b)
    requires CanEval(x, v)
    ensures CanEval(e, b)
  {
    hide EvalsBy;
    var c :| EvalsBy(x, v, c);
    OneOperand(e, x, v, c, b);
  }

  lemma SameCondition(e: Expr, t: FlowId, f: FlowId, exc: Option<FlowId>, st: State)
    requires !Dead(st)
    ensures e.Paren? && IsLogicalExpression(e.inner) ==> BindCondition(e, t, f, exc, st) == BindCondition(e.inner, t, f, exc, st)
    ensures e.Not? && IsLogicalExpression(e.operand) ==> BindCondition(e, t, f, exc, st) == BindCondition(e.operand, f, t, exc, st)
  {
    hide BindLogical, BindConditional, AddConditions;
  }

  lemma LiteralExact(e: Expr, t: FlowId, f: FlowId, exc: Option<FlowId>, st: State, b: bool)
    requires (e.TrueLiteral? || e.FalseLiteral?) && Valid(st) && t != f
    requires Gained(st.graph, BindCondition(e, t, f, exc, st).graph, TargetFor(b, t, f))
    ensures CanEval(e, b)
  {
    if e.TrueLiteral? == b {
      Leaf(e, b);
    } else {
      LiteralGainsNothing(e, t, f, exc, st, b);
    }
  }

  lemma LiteralGainsNothing(e: Expr, t: FlowId, f: FlowId, exc: Option<FlowId>, st: State, b: bool)
    requires (e.TrueLiteral? || e.FalseLiteral?) && e.TrueLiteral? != b && Valid(st) && t != f
    ensures !Gained(st.graph, BindCondition(e, t, f, exc, st).graph, TargetFor(b, t, f))
  {
    var s1 := AddCondition(st, t, true, Some(e));
    assert BindCondition(e, t, f, exc, st) == AddCondition(s1, f, false, Some(e));
    assert IsUnreachable(s1.graph, UNREACHABLE_FLOW);
  }

  lemma {:induction false} LogicalExact(e: Expr, t: FlowId, f: FlowId, exc: Option<FlowId>, st: State, b: bool)
    requires e.Logical? && Valid(st) && !Dead(st) && Open(e) && t < |st.graph| && f < |st.graph| && t != f
    requires Outside(exc, t, f, st)
    requires Gained(st.graph, BindCondition(e, t, f, exc, st).graph, TargetFor(b, t, f))
    ensures CanEval(e, b)
    decreases e, 0
  {
    hide Gained, Valid, BindCondition, EvalsBy, AddAntecedent, Grows, FinishFlowLabel;
    var target, pre, s0, s1, s2, s3 := LogicalParts(e, t, f, exc, st, b);
    var lt, lf := LeftTrue(e, t, pre), LeftFalse(e, f, pre);
    GainedTrans(st.graph, s0.graph, s3.graph, target);
    GainedTrans(s0.graph, s1.graph, s3.graph, target);
    if Gained(s0.graph, s1.graph, target) {
      ConditionGrows(e.left, lt, lf, exc, s0);
      GainedTarget({lt, lf} + Optional(exc), s0, s1, target);
      ConditionExact(e.left, lt, lf, exc, s0, b);
      var c :| EvalsBy(e.left, b, c);
      OneOperand(e, e.left, b, c, b);
    } else {
      if Dead(s2) {
        DeadCondition(e.right, t, f, exc, s2);
        NoGain(s1.graph, target);
      } else {
        var v := e.op.AmpersandAmpersand?;
        ResumedGained(s0.graph, s1, pre);
        ConditionExact(e.left, lt, lf, exc, s0, v);
        ConditionExact(e.right, t, f, exc, s2, b);
        var c :| EvalsBy(e.left, v, c);
        var c' :| EvalsBy(e.right, b, c');
        TwoOperands(e, e.left, v, c, e.right, b, c', b);
      }
    }
  }

  lemma LogicalParts(e: Expr, t: FlowId, f: FlowId, exc: Option<FlowId>, st: State, b: bool)
    returns (target: FlowId, pre: FlowId, s0: State, s1: State, s2: State, s3: State)
    requires e.Logical? && Valid(st) && !Dead(st) && t < |st.graph| && f < |st.graph|
    ensures target == TargetFor(b, t, f) && pre == |st.graph| && s0 == NewNode(st, BranchLabel([]))
    ensures s1 == BindCondition(e.left, LeftTrue(e, t, pre), LeftFalse(e, f, pre), exc, s0) && s2 == Resume(s1, pre)
    ensures s3 == BindCondition(e.right, t, f, exc, s2) && s3 == BindCondition(e, t, f, exc, st)
    ensures Valid(s0) && Valid(s1) && Valid(s2) && |s0.graph| == |st.graph| + 1 && |s0.graph| <= |s1.graph|
    ensures !Gained(st.graph, s0.graph, target) && Antecedents(s0.graph, pre) == []
  {
    hide Valid, BindCondition, AddAntecedent, FinishFlowLabel, Gained, Grows;
    target, pre := TargetFor(b, t, f), |st.graph|;
    s0 := NewNode(st, BranchLabel([]));
    FlowInRange(st);
    AppendGrows(st, s0, [BranchLabel([])]);
    NewGainsNothing(st, [BranchLabel([])], target);
    var lt, lf := LeftTrue(e, t, pre), LeftFalse(e, f, pre);
    s1 := BindCondition(e.left, lt, lf, exc, s0);
    ConditionGrows(e.left, lt, lf, exc, s0);
    GrowsExtends({lt, lf} + Optional(exc), s0, s1);
    s2 := Resume(s1, pre);
    ResumeGrows(s1, pre);
    s3 := BindCondition(e.right, t, f, exc, s2);
    LogicalCondition(e, t, f, exc, st);
  }

  lemma LogicalCondition(e: Expr, t: FlowId, f: FlowId, exc: Option<FlowId>, st: State)
    requires e.Logical? && !Dead(st)
    ensures BindCondition(e, t, f, exc, st) == BindAndOr(e, t, f, |st.graph|, exc, NewNode(st, BranchLabel([])))
  {
    hide BindAndOr, AddConditions;
    assert IsLogicalExpression(e);
    assert BindCondition(e, t, f, exc, st) == BindExpr(e, AsBranch(t, f), exc, st);
    assert BindExpr(e, AsBranch(t, f), exc, st) == BindLogical(e, AsBranch(t, f), exc, st);
    assert BindLogical(e, AsBranch(t, f), exc, st) == BindLogicalLike(e, t, f, exc, st);
  }

  // ----- runs that are possible -----

  ghost predicate RunEnds(run: Machine -> Run, o: Outcome, c: seq<Choice>, past: seq<Event>, rest: seq<Choice>) {
    var r := run(Machine(past, c + rest));
    r.outcome == o && r.machine.future == rest
  }

  /** With these choices the run ends this way, whatever was before and whatever comes after. */
  ghost predicate RunsBy(run: Machine -> Run, o: Outcome, c: seq<Choice>) {
    forall past, rest :: RunEnds(run, o, c, past, rest)
  }

  ghost predicate CanEnd(run: Machine -> Run, o: Outcome) {
    exists c :: RunsBy(run, o, c)
  }

  ghost function EndsOf(run: Machine -> Run): iset<Outcome> {
    iset o: Outcome | CanEnd(run, o)
  }

  function StmtRun(s: Stmt, labels: set<string>): Machine -> Run {
    m => Exec(s, labels, m)
  }

  function LiveRun(s: Stmt, labels: set<string>): Machine -> Run {
    m => ExecLive(s, labels, m)
  }

  function SeqRun(ss: seq<Stmt>): Machine -> Run {
    m => ExecSeq(ss, m)
  }

  ghost function Ends(s: Stmt, labels: set<string>): iset<Outcome> {
    EndsOf(StmtRun(s, labels))
  }

  /** An expression, and then a run. */
  lemma EvalThen(run: Machine -> Run, e: Expr, b: bool, next: Machine -> Run, o: Outcome)
    requires CanEval(e, b) && o in EndsOf(next)
    requires forall m :: Eval(e, m).outcome == Value(b) ==> run(m) == next(Eval(e, m).machine)
    ensures o in EndsOf(run)
  {
    hide Eval;
    var c :| EvalsBy(e, b, c);
    var c' :| RunsBy(next, o, c');
    forall past, rest
      ensures RunEnds(run, o, c + c', past, rest)
    {
      assert (c + c') + rest == c + (c' + rest);
      assert EvalEnds(e, b, c, past, c' + rest);
      assert RunEnds(next, o, c', Eval(e, Machine(past, c + (c' + rest))).machine.past, rest);
    }
    assert RunsBy(run, o, c + c');
  }

  /** An expression, and nothing after it. */
  lemma EvalInto(run: Machine -> Run, e: Expr, b: bool, o: Outcome)
    requires CanEval(e, b)
    requires forall m :: Eval(e, m).outcome == Value(b) ==> run(m).outcome == o && run(m).machine.future == Eval(e, m).machine.future
    ensures o in EndsOf(run)
  {
    hide Eval;
    var c :| EvalsBy(e, b, c);
    forall past, rest
      ensures RunEnds(run, o, c, past, rest)
    {
      assert EvalEnds(e, b, c, past, rest);
    }
    assert RunsBy(run, o, c);
  }

  /** One run, and then another. */
  lemma RunThen(run: Machine -> Run, first: Machine -> Run, o: Outcome, next: Machine -> Run, o': Outcome)
    requires o in EndsOf(first) && o' in EndsOf(next)
    requires forall m :: first(m).outcome == o ==> run(m) == next(first(m).machine)
    ensures o' in EndsOf(run)
  {
    var c :| RunsBy(first, o, c);
    var c' :| RunsBy(next, o', c');
    forall past, rest
      ensures RunEnds(run, o', c + c', past, rest)
    {
      assert (c + c') + rest == c + (c' + rest);
      assert RunEnds(first, o, c, past, c' + rest);
      assert RunEnds(next, o', c', first(Machine(past, c + (c' + rest))).machine.past, rest);
    }
    assert RunsBy(run, o', c + c');
  }

  lemma RunInto(run: Machine -> Run, first: Machine -> Run, o: Outcome, o': Outcome)
    requires o in EndsOf(first)
    requires forall m :: first(m).outcome == o ==> run(m).outcome == o' && run(m).machine.future == first(m).machine.future
    ensures o' in EndsOf(run)
  {
    var c :| RunsBy(first, o, c);
    forall past, rest
      ensures RunEnds(run, o', c, past, rest)
    {
      assert RunEnds(first, o, c, past, rest);
    }
    assert RunsBy(run, o', c);
  }

  lemma RunNow(run: Machine -> Run, o: Outcome)
    requires forall m :: run(m).outcome == o && run(m).machine.future == m.future
    ensures o in EndsOf(run)
  {
    forall past, rest
      ensures RunEnds(run, o, [], past, rest)
    {
      assert [] + rest == rest;
    }
    assert RunsBy(run, o, []);
  }

  /** A choice, and nothing after it. */
  lemma ChoiceInto(run: Machine -> Run, choice: Choice, o: Outcome)
    requires forall m: Machine :: m.future != [] && m.future[0] == choice ==> run(m).outcome == o && run(m).machine.future == m.future[1..]
    ensures o in EndsOf(run)
  {
    forall past, rest
      ensures RunEnds(run, o, [choice], past, rest)
    {
      assert ([choice] + rest)[1..] == rest;
    }
    assert RunsBy(run, o, [choice]);
  }

  /** A choice, and then a run. */
  lemma ChoiceThen(run: Machine -> Run, choice: Choice, emitted: seq<Event>, next: Machine -> Run, o: Outcome)
    requires o in EndsOf(next)
    requires forall m: Machine :: m.future != [] && m.future[0] == choice ==> run(m) == next(Machine(m.past + emitted, m.future[1..]))
    ensures o in EndsOf(run)
  {
    var c :| RunsBy(next, o, c);
    forall past, rest
      ensures RunEnds(run, o, [choice] + c, past, rest)
    {
      assert (([choice] + c) + rest)[1..] == c + rest;
      assert RunEnds(next, o, c, past + emitted, rest);
    }
    assert RunsBy(run, o, [choice] + c);
  }

  /** Any statement may raise, may be stopped at, and may run. */
  lemma StmtEnds(s: Stmt, labels: set<string>, o: Outcome)
    ensures Raised in Ends(s, labels)
    ensures IsRecorded(s) ==> Reached(s.id) in Ends(s, labels)
    ensures o in EndsOf(LiveRun(s, labels)) ==> o in Ends(s, labels)
  {
    hide ExecLive, EndsOf;
    ChoiceInto(StmtRun(s, labels), Raise, Raised);
    if IsRecorded(s) {
      ChoiceInto(StmtRun(s, labels), No, Reached(s.id));
    }
    if o in EndsOf(LiveRun(s, labels)) {
      forall m: Machine | m.future != [] && m.future[0] == Yes
        ensures StmtRun(s, labels)(m) == LiveRun(s, labels)(Machine(m.past + [], m.future[1..]))
      {
        assert m.past + [] == m.past;
      }
      ChoiceThen(StmtRun(s, labels), Yes, [], LiveRun(s, labels), o);
    }
  }

  // ----- what a part of the graph shows about runs -----

  /** An ending for which the current targets in force lead to `t`; exceptions may occur anywhere. */
  ghost predicate Reason(ctx: Context, t: FlowId, ends: iset<Outcome>) {
    || (exists d :: Broke(d) in ends && BreakTarget(ctx, d) == Some(t))
    || (exists d :: Continued(d) in ends && ContinueTarget(ctx, d) == Some(t))
    || (Returned in ends && ctx.returnTarget == Some(t))
    || ctx.exceptionTarget == Some(t)
  }

  /** From `a` to `b`, the labels below `base` have gained antecedents, and statements flows, only for
      endings that are possible. */
  ghost predicate Explained(id: nat, base: nat, ctx: Context, a: State, b: State, ends: iset<Outcome>) {
    && (forall t: FlowId :: t < base && Gained(a.graph, b.graph, t) ==> Reason(ctx, t, ends))
    && (forall k :: k in b.marks && k !in a.marks && k.id == id ==> k.FlowAt? && Reached(id) in ends)
  }

  /** And the flow goes on after `b` only if the part can complete. */
  ghost predicate Exact(id: nat, base: nat, ctx: Context, a: State, b: State, ends: iset<Outcome>) {
    Explained(id, base, ctx, a, b, ends) && (!Dead(b) ==> Completed in ends)
  }

  lemma ExplainedTrans(id: nat, base: nat, ctx: Context, a: State, b: State, c: State, ends: iset<Outcome>)
    requires Explained(id, base, ctx, a, b, ends) && Explained(id, base, ctx, b, c, ends)
    ensures Explained(id, base, ctx, a, c, ends)
  {
    hide Gained, Reason;
    forall t: FlowId | t < base && Gained(a.graph, c.graph, t)
      ensures Reason(ctx, t, ends)
    {
      GainedTrans(a.graph, b.graph, c.graph, t);
    }
  }

  /** A step that records nothing and adds to labels at or above `base` or to the exception target only. */
  lemma ExplainedStep(id: nat, base: nat, ctx: Context, a: State, b: State, targets: set<FlowId>, ends: iset<Outcome>)
    requires base <= |a.graph| && Grows(targets, a, b) && b.marks == a.marks
    requires forall t :: t in targets ==> t >= base || ctx.exceptionTarget == Some(t)
    ensures Explained(id, base, ctx, a, b, ends)
  {
    hide Gained, Grows;
    forall t: FlowId | t < base && Gained(a.graph, b.graph, t)
      ensures Reason(ctx, t, ends)
    {
      GainedTarget(targets, a, b, t);
    }
  }

  /** The same endings under other targets. */
  lemma ExplainedOtherwise(id: nat, base: nat, ctx: Context, base': nat, ctx': Context, a: State, b: State,
                           ends: iset<Outcome>,
                           ends': iset<Outcome>)
    requires Explained(id, base', ctx', a, b, ends') && base <= base'
    requires forall t: FlowId :: t < base && Reason(ctx', t, ends') ==> Reason(ctx, t, ends)
    requires forall id :: Reached(id) in ends' ==> Reached(id) in ends
    ensures Explained(id, base, ctx, a, b, ends)
  {
    hide Gained, Reason;
  }

  lemma ReasonMore(ctx: Context, t: FlowId, ends: iset<Outcome>, ends': iset<Outcome>)
    requires Reason(ctx, t, ends) && ends <= ends'
    ensures Reason(ctx, t, ends')
  {
  }

  /** Nothing happens from a dead flow on. */
  lemma ExplainedNothing(id: nat, base: nat, ctx: Context, a: State, b: State, ends: iset<Outcome>)
    requires b.graph == a.graph && b.marks == a.marks
    ensures Explained(id, base, ctx, a, b, ends)
  {
  }

  // ----- plain statements -----

  /** Which jumps have a target. */
  datatype Shape = Shape(breakable: bool, continuable: bool, labels: seq<(string, bool)>, wrapping: nat)

  function LabelShapes(labels: seq<ActiveLabel>): (r: seq<(string, bool)>)
    ensures |r| == |labels| && forall i :: 0 <= i < |r| ==> r[i] == (labels[i].name, labels[i].continueTarget.Some?)
  {
    if labels == [] then [] else [(labels[0].name, labels[0].continueTarget.Some?)] + LabelShapes(labels[1..])
  }

  function ShapeOf(ctx: Context): Shape {
    Shape(ctx.breakTarget.Some?, ctx.continueTarget.Some?, LabelShapes(ctx.labels), ctx.wrapping)
  }

  function InnerShape(sh: Shape): Shape {
    sh.(wrapping := 0)
  }

  function LoopShape(sh: Shape): Shape {
    Shape(true, true, seq(|sh.labels|, i requires 0 <= i < |sh.labels| => (sh.labels[i].0, sh.labels[i].1 || i < sh.wrapping)), 0)
  }

  function LabelShape(sh: Shape, name: string): Shape {
    sh.(labels := [(name, false)] + sh.labels, wrapping := sh.wrapping + 1)
  }

  function SwitchShape(sh: Shape): Shape {
    InnerShape(sh).(breakable := true)
  }

  /** Whether there is a label of that name, and whether it labels a loop. */
  function FindShape(labels: seq<(string, bool)>, name: string): Option<bool> {
    if labels == [] then None
    else if labels[0].0 == name then Some(labels[0].1)
    else FindShape(labels[1..], name)
  }

  /** Nothing is fixed that the graph does not see: conditions are open, a try block with a catch clause is
      not empty, no jump leaves a try statement that has a finally block, a switch has no more than one
      default clause, every jump has a target; and functions are left to themselves. */
  predicate Plain(id: nat, s: Stmt, sh: Shape) {
    match s
    case Block(_, ss) => PlainSeq(id, ss, InnerShape(sh))
    case If(_, c, a, b) => Open(c) && Plain(id, a, InnerShape(sh)) && (b.Some? ==> Plain(id, b.value, InnerShape(sh)))
    case While(_, c, body) => Open(c) && Plain(id, body, LoopShape(sh))
    case Do(_, body, c) => Open(c) && Plain(id, body, LoopShape(sh))
    case For(_, _, test, _, body) => (test.Some? ==> Open(test.value)) && Plain(id, body, LoopShape(sh))
    case ForOf(_, _, _, body) => Plain(id, body, LoopShape(sh))
    case Break(_, d) => if d.None? then sh.breakable else FindShape(sh.labels, d.value).Some?
    case Continue(_, d) => if d.None? then sh.continuable else FindShape(sh.labels, d.value) == Some(true)
    case Switch(_, _, clauses) => PlainClauses(id, clauses, SwitchShape(sh)) && OneDefault(clauses)
    case Labeled(_, name, body) => Plain(id, body, LabelShape(sh, name))
    case Try(_, b, h, f) =>
      && PlainSeq(id, b, InnerShape(sh)) && (h.SomeBlock? ==> PlainSeq(id, h.statements, InnerShape(sh)) && b != [])
      && (f.SomeBlock? ==> PlainSeq(id, f.statements, InnerShape(sh)) && Escapes(s, {}) == {})
    case Function(_, _, _) => id !in Ids(s)
    case _ => true
  }

  predicate PlainSeq(id: nat, ss: seq<Stmt>, sh: Shape) {
    ss == [] || (Plain(id, ss[0], sh) && PlainSeq(id, ss[1..], sh))
  }

  predicate PlainClauses(id: nat, clauses: seq<Clause>, sh: Shape) {
    clauses == [] || (PlainSeq(id, clauses[0].body, sh) && PlainClauses(id, clauses[1..], sh))
  }

  lemma LoopShapeOf(ctx: Context, breakTarget: FlowId, continueTarget: FlowId)
    ensures ShapeOf(LoopContext(ctx, breakTarget, continueTarget)) == LoopShape(ShapeOf(ctx))
  {
    assert LabelShapes(LoopContext(ctx, breakTarget, continueTarget).labels) == LoopShape(ShapeOf(ctx)).labels;
  }

  lemma LabelShapeOf(ctx: Context, name: string, post: FlowId)
    ensures ShapeOf(LabelContext(ctx, name, post)) == LabelShape(ShapeOf(ctx), name)
  {
    assert LabelShapes(LabelContext(ctx, name, post).labels) == LabelShape(ShapeOf(ctx), name).labels;
  }

  lemma {:induction false} FoundShape(labels: seq<ActiveLabel>, name: string)
    ensures var found := FindActiveLabel(labels, name);
            FindShape(LabelShapes(labels), name) == if found.None? then None else Some(found.value.continueTarget.Some?)
  {
    if labels != [] {
      FoundShape(labels[1..], name);
      assert LabelShapes(labels)[1..] == LabelShapes(labels[1..]);
    }
  }

  predicate OneDefault(clauses: seq<Clause>) {
    forall i, j :: 0 <= i < j < |clauses| ==> clauses[i].test.Some? || clauses[j].test.Some?
  }

  // ----- contexts -----

  ghost predicate TargetsBelow(ctx: Context, size: nat) {
    forall t :: t in Targets(ctx) ==> t < size
  }

  /** `labels` are the names of the labels that directly wrap the statement; all targets exist. */
  ghost predicate InScope(ctx: Context, labels: set<string>, size: nat) {
    && TargetsBelow(ctx, size)
    && (forall i :: 0 <= i < ctx.wrapping && i < |ctx.labels| ==> ctx.labels[i].name in labels)
    && (forall n :: n in labels ==> exists i :: 0 <= i < ctx.wrapping && i < |ctx.labels| && ctx.labels[i].name == n)
  }

  lemma InScopeLater(ctx: Context, labels: set<string>, size: nat, size': nat)
    requires InScope(ctx, labels, size) && size <= size'
    ensures InScope(ctx, labels, size') && InScope(Inner(ctx), {}, size')
  {
    assert Targets(Inner(ctx)) == Targets(ctx);
  }

  lemma ReasonInner(ctx: Context, t: FlowId, ends: iset<Outcome>)
    ensures Reason(Inner(ctx), t, ends) <==> Reason(ctx, t, ends)
  {
  }

  // ----- unreachable parts and functions -----

  /** Nothing has happened that concerns the node with this id: there may be the nodes of inner functions. */
  ghost predicate Quiet(id: nat, a: State, b: State) {
    Grows({}, a, b) && Unmarked(id, a, b) && Valid(b)
  }

  lemma QuietExplained(id: nat, base: nat, ctx: Context, a: State, b: State, ends: iset<Outcome>)
    requires Quiet(id, a, b) && base <= |a.graph|
    ensures Explained(id, base, ctx, a, b, ends)
    ensures |a.graph| <= |b.graph| && forall t: FlowId :: t < |a.graph| ==> !Gained(a.graph, b.graph, t)
  {
    forall t: FlowId | t < |a.graph|
      ensures !Gained(a.graph, b.graph, t)
    {
      NotGained({}, a, b, t);
    }
  }

  lemma {:induction false} DeadUnmarked(id: nat, s: Stmt, sh: Shape, st: State)
    requires Plain(id, s, sh)
    ensures Unmarked(id, st, BindDead(s, st))
    decreases s, 0
  {
    hide Escapes, BindContainer;
    var s0 := if IsReportable(s) && st.flow == UNREACHABLE_FLOW then st.(flow := REPORTED_UNREACHABLE_FLOW) else st;
    match s
    case Function(_, _, _) => ContainerMarks(id, s, s0);
    case Block(_, ss) => DeadsUnmarked(id, ss, InnerShape(sh), s0);
    case If(_, _, a, b) =>
      DeadUnmarked(id, a, InnerShape(sh), s0);
      if b.Some? {
        DeadUnmarked(id, b.value, InnerShape(sh), BindDead(a, s0));
      }
    case While(_, _, body) => DeadUnmarked(id, body, LoopShape(sh), s0);
    case Do(_, body, _) => DeadUnmarked(id, body, LoopShape(sh), s0);
    case For(_, _, _, _, body) => DeadUnmarked(id, body, LoopShape(sh), s0);
    case ForOf(_, _, _, body) => DeadUnmarked(id, body, LoopShape(sh), s0);
    case Labeled(_, name, body) => DeadUnmarked(id, body, LabelShape(sh, name), s0);
    case Switch(_, _, clauses) => DeadClausesUnmarked(id, clauses, SwitchShape(sh), s0);
    case Try(_, b, h, f) =>
      DeadsUnmarked(id, b, InnerShape(sh), s0);
      var s1 := BindDeads(b, s0);
      if h.SomeBlock? {
        DeadsUnmarked(id, h.statements, InnerShape(sh), s1);
      }
      if f.SomeBlock? {
        DeadsUnmarked(id, f.statements, InnerShape(sh), if h.SomeBlock? then BindDeads(h.statements, s1) else s1);
      }
    case _ =>
  }

  lemma {:induction false} DeadsUnmarked(id: nat, ss: seq<Stmt>, sh: Shape, st: State)
    requires PlainSeq(id, ss, sh)
    ensures Unmarked(id, st, BindDeads(ss, st))
    decreases ss, 0
  {
    hide Plain, BindDead;
    if ss != [] {
      DeadUnmarked(id, ss[0], sh, st);
      DeadsUnmarked(id, ss[1..], sh, BindDead(ss[0], st));
    }
  }

  lemma {:induction false} DeadClausesUnmarked(id: nat, clauses: seq<Clause>, sh: Shape, st: State)
    requires PlainClauses(id, clauses, sh)
    ensures Unmarked(id, st, BindDeadClauses(clauses, st))
    decreases clauses, 0
  {
    hide PlainSeq, BindDeads;
    if clauses != [] {
      DeadsUnmarked(id, clauses[0].body, sh, st);
      DeadClausesUnmarked(id, clauses[1..], sh, BindDeads(clauses[0].body, st));
    }
  }

  lemma DeadsQuiet(id: nat, ss: seq<Stmt>, sh: Shape, st: State)
    requires PlainSeq(id, ss, sh) && Dead(st) && Valid(st)
    ensures Quiet(id, st, BindDeads(ss, st)) && Dead(BindDeads(ss, st))
  {
    hide Dead, Valid, Grows, PlainSeq;
    DeadsGrow(ss, st);
    DeadsStay(ss, st);
    DeadsUnmarked(id, ss, sh, st);
  }

  lemma DeadClausesQuiet(id: nat, clauses: seq<Clause>, sh: Shape, st: State)
    requires PlainClauses(id, clauses, sh) && Dead(st) && Valid(st)
    ensures Quiet(id, st, BindDeadClauses(clauses, st)) && Dead(BindDeadClauses(clauses, st))
  {
    hide Dead, Valid, Grows, PlainClauses;
    DeadClausesGrow(clauses, st);
    DeadClausesStay(clauses, st);
    DeadClausesUnmarked(id, clauses, sh, st);
  }

  lemma DeadStmtQuiet(id: nat, s: Stmt, ctx: Context, st: State)
    requires Plain(id, s, ShapeOf(ctx)) && Dead(st) && Valid(st)
    ensures Quiet(id, st, BindStmt(s, ctx, st)) && Dead(BindStmt(s, ctx, st))
  {
    hide Dead, Valid, Grows, BindStmt, BindDead;
    DeadStmt(s, ctx, st);
    DeadGrows(s, st);
    DeadStays(s, st);
    DeadUnmarked(id, s, ShapeOf(ctx), st);
  }

  /** An inner function does not concern the nodes outside it. */
  lemma ContainerQuiet(id: nat, s: Stmt, st: State)
    requires s.Function? && id !in Ids(s) && Valid(st)
    ensures Quiet(id, st, BindContainer(s, st)) && BindContainer(s, st).flow == st.flow
  {
    hide Valid, Grows, Ids;
    ContainerGrows(s, st);
    ContainerMarks(id, s, st);
    ContainerKeepsFlow(s, st);
  }

  lemma {:induction false} FunctionsQuiet(id: nat, ss: seq<Stmt>, sh: Shape, st: State)
    requires PlainSeq(id, ss, sh) && Valid(st)
    ensures Quiet(id, st, BindFunctions(ss, st)) && BindFunctions(ss, st).flow == st.flow
    decreases ss
  {
    hide Valid, Grows, BindContainer, Ids;
    Begin({}, st);
    if ss != [] {
      var s1 := if ss[0].Function? then BindContainer(ss[0], st) else st;
      if ss[0].Function? {
        ContainerQuiet(id, ss[0], st);
      }
      FunctionsQuiet(id, ss[1..], sh, s1);
      Step({}, st, s1, {}, BindFunctions(ss, st));
    }
  }

  lemma FunctionEnds(s: Stmt, labels: set<string>)
    requires s.Function?
    ensures Completed in Ends(s, labels)
  {
    hide EndsOf;
    RunNow(LiveRun(s, labels), Completed);
    StmtEnds(s, labels, Completed);
  }

  // ----- statements -----

  /** The flow recorded on a statement, and what running it can lead to. */
  lemma {:induction false} StmtExact(id: nat, s: Stmt, labels: set<string>, ctx: Context, st: State)
    requires Plain(id, s, ShapeOf(ctx)) && Valid(st) && InScope(ctx, labels, |st.graph|)
    ensures Exact(id, |st.graph|, ctx, st, BindStmt(s, ctx, st), Ends(s, labels))
    decreases s, 5
  {
    hide Valid, Dead, BindLive, Explained, Ends, EndsOf, InScope;
    var out, ends := BindStmt(s, ctx, st), Ends(s, labels);
    if Dead(st) {
      DeadStmtQuiet(id, s, ctx, st);
      QuietExplained(id, |st.graph|, ctx, st, out, ends);
    } else if s.Function? {
      FunctionQuiet(id, s, ctx, st);
      QuietExplained(id, |st.graph|, ctx, st, out, ends);
      FunctionEnds(s, labels);
    } else {
      var s0 := Record(s, st);
      RecordValid(s, st);
      RecordExplained(id, s, labels, ctx, st);
      LiveExact(id, s, labels, ctx, s0);
      var live := EndsOf(LiveRun(s, labels));
      LiveEnds(s, labels);
      ExplainedMore(id, |st.graph|, ctx, s0, out, live, ends);
      ExplainedTrans(id, |st.graph|, ctx, st, s0, out, ends);
    }
  }

  lemma FunctionQuiet(id: nat, s: Stmt, ctx: Context, st: State)
    requires s.Function? && Plain(id, s, ShapeOf(ctx)) && Valid(st)
    ensures Quiet(id, st, BindStmt(s, ctx, st))
  {
    ContainerQuiet(id, s, st);
  }

  lemma RecordValid(s: Stmt, st: State)
    requires Valid(st)
    ensures Valid(Record(s, st)) && Record(s, st).graph == st.graph && Dead(Record(s, st)) == Dead(st)
  {
  }

  lemma RecordExplained(id: nat, s: Stmt, labels: set<string>, ctx: Context, st: State)
    ensures Explained(id, |st.graph|, ctx, st, Record(s, st), Ends(s, labels))
  {
    hide Ends;
    StmtEnds(s, labels, Raised);
  }

  lemma LiveEnds(s: Stmt, labels: set<string>)
    ensures EndsOf(LiveRun(s, labels)) <= Ends(s, labels)
  {
    hide Ends, EndsOf;
    forall o | o in EndsOf(LiveRun(s, labels))
      ensures o in Ends(s, labels)
    {
      StmtEnds(s, labels, o);
    }
  }

  lemma ExplainedMore(id: nat, base: nat, ctx: Context, a: State, b: State, ends: iset<Outcome>, ends': iset<Outcome>)
    requires Explained(id, base, ctx, a, b, ends) && ends <= ends'
    ensures Explained(id, base, ctx, a, b, ends')
  {
    hide Gained, Reason;
    forall t: FlowId | t < base && Gained(a.graph, b.graph, t)
      ensures Reason(ctx, t, ends')
    {
      ReasonMore(ctx, t, ends, ends');
    }
  }

  /** A statement inside another that is not its label. */
  lemma {:induction false} InnerExact(id: nat, s: Stmt, ctx: Context, st: State, base: nat, ends: iset<Outcome>)
    requires Plain(id, s, ShapeOf(Inner(ctx))) && Valid(st) && InScope(Inner(ctx), {}, |st.graph|) && base <= |st.graph|
    requires !Dead(st) ==> Ends(s, {}) <= ends
    ensures Explained(id, base, ctx, st, BindStmt(s, Inner(ctx), st), ends)
    ensures !Dead(BindStmt(s, Inner(ctx), st)) ==> !Dead(st) && Completed in Ends(s, {})
    decreases s, 6
  {
    hide Valid, Dead, BindStmt, Explained, Ends, Reason, InScope;
    var out := BindStmt(s, Inner(ctx), st);
    if Dead(st) {
      DeadStmtQuiet(id, s, Inner(ctx), st);
      QuietExplained(id, base, ctx, st, out, ends);
    } else {
      StmtExact(id, s, {}, Inner(ctx), st);
      forall t: FlowId | t < base && Reason(Inner(ctx), t, Ends(s, {}))
        ensures Reason(ctx, t, ends)
      {
        ReasonInner(ctx, t, Ends(s, {}));
        ReasonMore(ctx, t, Ends(s, {}), ends);
      }
      ExplainedOtherwise(id, base, ctx, |st.graph|, Inner(ctx), st, out, ends, Ends(s, {}));
    }
  }

  // ----- steps -----

  /** New labels are empty, and no old label gains from them. */
  lemma LabelsStep(id: nat, base: nat, ctx: Context, a: State, b: State, nodes: seq<FlowNode>, ends: iset<Outcome>)
    requires Valid(a) && base <= |a.graph| && b.graph == a.graph + nodes && b.marks == a.marks
    ensures Explained(id, base, ctx, a, b, ends)
  {
  }

  lemma JoinStep(id: nat, base: nat, ctx: Context, st: State, join: FlowId, from: FlowId, ends: iset<Outcome>)
    requires Valid(st) && base <= join && base <= |st.graph| && from < |st.graph|
    ensures Explained(id, base, ctx, st, JoinFrom(st, join, from), ends)
  {
    hide Grows, Valid, AddAntecedent;
    JoinFromGrows(st, join, from);
    ExplainedStep(id, base, ctx, st, JoinFrom(st, join, from), {join}, ends);
  }

  lemma ConditionStep(id: nat, base: nat, ctx: Context, e: Expr, t: FlowId, f: FlowId, st: State, ends: iset<Outcome>)
    requires Valid(st) && base <= t && base <= f && base <= |st.graph|
    ensures Explained(id, base, ctx, st, BindCondition(e, t, f, ctx.exceptionTarget, st), ends)
  {
    hide Grows, Valid, BindCondition;
    ConditionGrows(e, t, f, ctx.exceptionTarget, st);
    ConditionMarks(e, t, f, ctx.exceptionTarget, st);
    ExplainedStep(id, base, ctx, st, BindCondition(e, t, f, ctx.exceptionTarget, st), {t, f} + Optional(ctx.exceptionTarget), ends);
  }

  lemma ExprStep(id: nat, base: nat, ctx: Context, e: Expr, st: State, ends: iset<Outcome>)
    requires Valid(st) && base <= |st.graph|
    ensures Explained(id, base, ctx, st, BindExpr(e, AsValue, ctx.exceptionTarget, st), ends)
  {
    hide Grows, Valid, BindExpr;
    ExprGrows(e, AsValue, ctx.exceptionTarget, st);
    ExprMarks(e, AsValue, ctx.exceptionTarget, st);
    ExplainedStep(id, base, ctx, st, BindExpr(e, AsValue, ctx.exceptionTarget, st), ModeTargets(AsValue) + Optional(ctx.exceptionTarget), ends);
  }

  lemma MutateStep(id: nat, base: nat, ctx: Context, x: string, st: State, ends: iset<Outcome>)
    requires Valid(st) && base <= |st.graph|
    ensures Explained(id, base, ctx, st, Mutate(st, ctx.exceptionTarget, x), ends)
  {
    hide Grows, Valid;
    MutateGrows(st, ctx.exceptionTarget, x);
    ExplainedStep(id, base, ctx, st, Mutate(st, ctx.exceptionTarget, x), Optional(ctx.exceptionTarget), ends);
  }

  /** A part that starts at a label of the condition runs only if the condition can have that value. */
  lemma ConditionOpens(e: Expr, t: FlowId, f: FlowId, exc: Option<FlowId>, st: State, b: bool)
    requires Valid(st) && Open(e) && t < |st.graph| && f < |st.graph| && t != f && Outside(exc, t, f, st)
    requires Antecedents(st.graph, TargetFor(b, t, f)) == []
    requires !Dead(Resume(BindCondition(e, t, f, exc, st), TargetFor(b, t, f)))
    ensures CanEval(e, b)
  {
    hide Gained, Valid, BindCondition, FinishFlowLabel, Grows;
    ConditionGrows(e, t, f, exc, st);
    ResumedGained(st.graph, BindCondition(e, t, f, exc, st), TargetFor(b, t, f));
    ConditionExact(e, t, f, exc, st, b);
  }

  /** The condition was left through `post` without anything else. */
  lemma ConditionGained(e: Expr, t: FlowId, f: FlowId, exc: Option<FlowId>, st: State, out: State, b: bool)
    requires Valid(st) && Open(e) && t < |st.graph| && f < |st.graph| && t != f && Outside(exc, t, f, st)
    requires out == BindCondition(e, t, f, exc, st) && Gained(st.graph, out.graph, TargetFor(b, t, f))
    ensures CanEval(e, b)
  {
    ConditionExact(e, t, f, exc, st, b);
  }

  lemma NotGained(targets: set<FlowId>, a: State, b: State, t: FlowId)
    requires Grows(targets, a, b) && t < |a.graph| && t !in targets
    ensures !Gained(a.graph, b.graph, t)
  {
  }

  /** Binding a statement does not add to labels that are not in scope. */
  lemma StmtNotGained(s: Stmt, ctx: Context, st: State, size: nat, t: FlowId)
    requires Valid(st) && TargetsBelow(ctx, size) && size <= t < |st.graph|
    ensures !Gained(st.graph, BindStmt(s, ctx, st).graph, t)
  {
    hide Grows, Gained, Targets, BindStmt, Valid;
    StmtGrows(s, ctx, st);
    NotGained(Targets(ctx), st, BindStmt(s, ctx, st), t);
  }

  lemma ScopeTargets(ctx: Context, size: nat)
    requires TargetsBelow(ctx, size)
    ensures ctx.exceptionTarget.Some? ==> ctx.exceptionTarget.value < size
    ensures ctx.returnTarget.Some? ==> ctx.returnTarget.value < size
    ensures TargetsBelow(Inner(ctx), size)
  {
    OwnTargets(ctx);
  }

  // ----- if -----

  lemma IfThen(s: Stmt, labels: set<string>)
    requires s.If?
    ensures CanEval(s.cond, true) ==> Ends(s.thenStmt, {}) <= EndsOf(LiveRun(s, labels))
    ensures CanEval(s.cond, false) && s.elseStmt.Some? ==> Ends(s.elseStmt.value, {}) <= EndsOf(LiveRun(s, labels))
    ensures CanEval(s.cond, false) && s.elseStmt.None? ==> Completed in EndsOf(LiveRun(s, labels))
  {
    hide Eval, Exec, EndsOf, CanEval;
    forall o | CanEval(s.cond, true) && o in Ends(s.thenStmt, {})
      ensures o in EndsOf(LiveRun(s, labels))
    {
      EvalThen(LiveRun(s, labels), s.cond, true, StmtRun(s.thenStmt, {}), o);
    }
    if CanEval(s.cond, false) {
      if s.elseStmt.Some? {
        forall o | o in Ends(s.elseStmt.value, {})
          ensures o in EndsOf(LiveRun(s, labels))
        {
          EvalThen(LiveRun(s, labels), s.cond, false, StmtRun(s.elseStmt.value, {}), o);
        }
      } else {
        EvalInto(LiveRun(s, labels), s.cond, false, Completed);
      }
    }
  }

  lemma {:induction false} IfExact(id: nat, s: Stmt, labels: set<string>, ctx: Context, st: State)
    requires s.If? && Plain(id, s, ShapeOf(ctx)) && Valid(st) && !Dead(st) && InScope(ctx, labels, |st.graph|)
    ensures Exact(id, |st.graph|, ctx, st, BindLive(s, ctx, st), EndsOf(LiveRun(s, labels)))
    decreases s, 2
  {
    hide Valid, Dead, BindStmt, BindCondition, Explained, Ends, EndsOf, CanEval, Extends, TargetsBelow, AddAntecedent,
         FinishFlowLabel, Gained, Targets;
    var s0, s1, t, s3, e, done := IfStages(s, ctx, st);
    var base, ends, post := |st.graph|, EndsOf(LiveRun(s, labels)), |st.graph| + 2;
    var r1 := Resume(s1, base);
    IfThen(s, labels);
    ScopeTargets(ctx, base);
    ExtendsLength(s0.graph, s1.graph);
    ExtendsLength(s1.graph, s3.graph);
    ExtendsLength(s0.graph, t.graph);
    ExtendsLength(s0.graph, e.graph);
    InScopeLater(ctx, labels, base, |s1.graph|);
    InScopeLater(ctx, labels, base, |s3.graph|);
    LabelsStep(id, base, ctx, st, s0, BRANCHES, ends);
    ConditionStep(id, base, ctx, s.cond, base, base + 1, s0, ends);
    ExplainedNothing(id, base, ctx, s1, r1, ends);
    if !Dead(r1) {
      ConditionOpens(s.cond, base, base + 1, ctx.exceptionTarget, s0, true);
    }
    InnerExact(id, s.thenStmt, ctx, r1, base, ends);
    FlowInRange(t);
    JoinStep(id, base, ctx, t, post, t.flow, ends);
    ExplainedNothing(id, base, ctx, Join(t, post), s3, ends);
    if !Dead(s3) {
      ElseOpens(s, ctx, st, s0, s1, t, s3, e, done);
    }
    if s.elseStmt.Some? {
      InnerExact(id, s.elseStmt.value, ctx, s3, base, ends);
    } else {
      ExplainedNothing(id, base, ctx, s3, e, ends);
    }
    FlowInRange(e);
    JoinStep(id, base, ctx, e, post, e.flow, ends);
    ExplainedNothing(id, base, ctx, done, Resume(done, post), ends);
    ExplainedTrans(id, base, ctx, st, s0, s1, ends);
    ExplainedTrans(id, base, ctx, st, s1, r1, ends);
    ExplainedTrans(id, base, ctx, st, r1, t, ends);
    ExplainedTrans(id, base, ctx, st, t, Join(t, post), ends);
    ExplainedTrans(id, base, ctx, st, Join(t, post), s3, ends);
    ExplainedTrans(id, base, ctx, st, s3, e, ends);
    ExplainedTrans(id, base, ctx, st, e, done, ends);
    ExplainedTrans(id, base, ctx, st, done, Resume(done, post), ends);
    if !Dead(Resume(done, post)) {
      IfJoined(s, ctx, st, s0, s1, t, s3, e, done);
    }
  }

  /** The else label gains antecedents from the condition only. */
  lemma ElseOpens(s: Stmt, ctx: Context, st: State, s0: State, s1: State, t: State, s3: State, e: State, done: State)
    requires IfStaged(s, ctx, st, s0, s1, t, s3, e, done) && Open(s.cond) && TargetsBelow(ctx, |st.graph|) && !Dead(s3)
    ensures CanEval(s.cond, false)
  {
    hide Valid, Dead, BindStmt, BindCondition, CanEval, Extends, AddAntecedent, FinishFlowLabel, Gained, Targets;
    var base := |st.graph|;
    ScopeTargets(ctx, base);
    ExtendsLength(s0.graph, s1.graph);
    FlowInRange(t);
    JoinFromGrows(t, base + 2, t.flow);
    ResumedGained(s0.graph, Join(t, base + 2), base + 1);
    GainedTrans(s0.graph, t.graph, Join(t, base + 2).graph, base + 1);
    if Gained(t.graph, Join(t, base + 2).graph, base + 1) {
      JoinGained(t, base + 2, t.flow, base + 1);
    }
    GainedTrans(s0.graph, s1.graph, t.graph, base + 1);
    StmtNotGained(s.thenStmt, Inner(ctx), Resume(s1, base), base, base + 1);
    ConditionGained(s.cond, base, base + 1, ctx.exceptionTarget, s0, s1, false);
  }

  /** The flow after the statement comes from one of its branches. */
  lemma IfJoined(s: Stmt, ctx: Context, st: State, s0: State, s1: State, t: State, s3: State, e: State, done: State)
    requires IfStaged(s, ctx, st, s0, s1, t, s3, e, done) && TargetsBelow(ctx, |st.graph|)
    requires !Dead(Resume(done, |st.graph| + 2))
    ensures !Dead(t) || !Dead(e)
  {
    hide Valid, BindStmt, BindCondition, Extends, AddAntecedent, FinishFlowLabel, Gained, Targets, Grows;
    var base, post := |st.graph|, |st.graph| + 2;
    ScopeTargets(ctx, base);
    ExtendsLength(s0.graph, s1.graph);
    ExtendsLength(s1.graph, s3.graph);
    ResumedGained(s0.graph, done, post);
    GainedTrans(s0.graph, s1.graph, done.graph, post);
    ConditionGrows(s.cond, base, base + 1, ctx.exceptionTarget, s0);
    NotGained({base, base + 1} + Optional(ctx.exceptionTarget), s0, s1, post);
    GainedTrans(s1.graph, t.graph, done.graph, post);
    StmtNotGained(s.thenStmt, Inner(ctx), Resume(s1, base), base, post);
    GainedTrans(t.graph, s3.graph, done.graph, post);
    if Gained(t.graph, s3.graph, post) {
      JoinGained(t, post, t.flow, post);
    } else {
      GainedTrans(s3.graph, e.graph, done.graph, post);
      if s.elseStmt.Some? {
        StmtNotGained(s.elseStmt.value, Inner(ctx), s3, base, post);
      } else {
        NoGain(s3.graph, post);
      }
      JoinGained(e, post, e.flow, post);
    }
  }

  // ----- loops -----

  /** The endings of its body that end a loop, too, unchanged. */
  predicate Passes(o: Outcome, labels: set<string>) {
    || o.Reached? || o.Returned?
    || (o.Broke? && o.destination.Some?)
    || (o.Continued? && o.destination.Some? && o.destination.value !in labels)
  }

  ghost predicate PassedOn(body: iset<Outcome>, labels: set<string>, ends: iset<Outcome>) {
    forall o :: o in body && Passes(o, labels) ==> o in ends
  }

  /** An ending after which the loop goes on to its next iteration. */
  ghost predicate ComesBack(body: iset<Outcome>, labels: set<string>) {
    exists o :: o in body && GoesOn(o, labels)
  }

  lemma LoopReasonOutside(ctx: Context, labels: set<string>, base: nat, post: FlowId, cont: FlowId, t: FlowId,
                          body: iset<Outcome>, ends: iset<Outcome>)
    requires InScope(ctx, labels, base) && base <= post && base <= cont && t < base
    requires Reason(LoopContext(ctx, post, cont), t, body) && PassedOn(body, labels, ends)
    ensures Reason(ctx, t, ends)
  {
    hide SetContinueTarget, FindActiveLabel, Targets;
    var inner := LoopContext(ctx, post, cont);
    if d :| Broke(d) in body && BreakTarget(inner, d) == Some(t) {
      FoundInLoop(ctx.labels, ctx.wrapping, cont, d.value);
      assert BreakTarget(ctx, d) == Some(t);
    } else if d :| Continued(d) in body && ContinueTarget(inner, d) == Some(t) {
      FoundInLoop(ctx.labels, ctx.wrapping, cont, d.value);
      assert ContinueTarget(ctx, d) == Some(t) && d.value !in labels;
    }
  }

  lemma JumpsBelow(ctx: Context, base: nat, d: Option<string>)
    requires TargetsBelow(ctx, base)
    ensures BreakTarget(ctx, d).Some? ==> BreakTarget(ctx, d).value < base
    ensures ContinueTarget(ctx, d).Some? ==> ContinueTarget(ctx, d).value < base
  {
    hide Targets;
    JumpTargets(ctx, d);
    assert BreakTarget(ctx, d).Some? ==> BreakTarget(ctx, d).value in Optional(BreakTarget(ctx, d));
    assert ContinueTarget(ctx, d).Some? ==> ContinueTarget(ctx, d).value in Optional(ContinueTarget(ctx, d));
  }

  lemma LoopReasonPost(ctx: Context, labels: set<string>, base: nat, post: FlowId, cont: FlowId, body: iset<Outcome>)
    requires InScope(ctx, labels, base) && base <= post && base <= cont && post != cont
    requires Reason(LoopContext(ctx, post, cont), post, body)
    ensures Broke(None) in body
  {
    hide SetContinueTarget, FindActiveLabel, Targets;
    var inner := LoopContext(ctx, post, cont);
    ScopeTargets(ctx, base);
    if d :| Broke(d) in body && BreakTarget(inner, d) == Some(post) {
      if d.Some? {
        FoundInLoop(ctx.labels, ctx.wrapping, cont, d.value);
        JumpsBelow(ctx, base, d);
      }
    } else if d :| Continued(d) in body && ContinueTarget(inner, d) == Some(post) {
      FoundInLoop(ctx.labels, ctx.wrapping, cont, d.value);
      JumpsBelow(ctx, base, d);
    }
  }

  lemma LoopReasonContinue(ctx: Context, labels: set<string>, base: nat, post: FlowId, cont: FlowId, body: iset<Outcome>)
    requires InScope(ctx, labels, base) && base <= post && base <= cont && post != cont
    requires Reason(LoopContext(ctx, post, cont), cont, body)
    ensures ComesBack(body, labels)
  {
    hide SetContinueTarget, FindActiveLabel, Targets;
    var inner := LoopContext(ctx, post, cont);
    ScopeTargets(ctx, base);
    if d :| Broke(d) in body && BreakTarget(inner, d) == Some(cont) {
      FoundInLoop(ctx.labels, ctx.wrapping, cont, d.value);
      JumpsBelow(ctx, base, d);
    } else if d :| Continued(d) in body && ContinueTarget(inner, d) == Some(cont) {
      if d.Some? {
        FoundInLoop(ctx.labels, ctx.wrapping, cont, d.value);
        JumpsBelow(ctx, base, d);
      }
      assert GoesOn(Continued(d), labels);
    }
  }

  lemma {:induction false} LoopBodyExact(id: nat, body: Stmt, ctx: Context, labels: set<string>, base: nat, post: FlowId,
                                         cont: FlowId, st: State, ends: iset<Outcome>)
    requires Plain(id, body, LoopShape(ShapeOf(ctx))) && Valid(st) && InScope(ctx, labels, base)
    requires base <= post < |st.graph| && base <= cont < |st.graph| && post != cont
    requires !Dead(st) ==> PassedOn(Ends(body, {}), labels, ends)
    ensures var out := BindStmt(body, LoopContext(ctx, post, cont), st);
            && Explained(id, base, ctx, st, out, ends)
            && (!Dead(out) ==> !Dead(st) && Completed in Ends(body, {}))
            && (Gained(st.graph, out.graph, post) ==> !Dead(st) && Broke(None) in Ends(body, {}))
            && (Gained(st.graph, out.graph, cont) ==> !Dead(st) && ComesBack(Ends(body, {}), labels))
    decreases body, 6
  {
    hide Valid, Dead, BindStmt, Ends, EndsOf, Reason, InScope, Gained, LoopContext, PassedOn, ComesBack, Targets;
    LoopShapeOf(ctx, post, cont);
    var inner, body' := LoopContext(ctx, post, cont), Ends(body, {});
    var out := BindStmt(body, inner, st);
    if Dead(st) {
      DeadStmtQuiet(id, body, inner, st);
      QuietExplained(id, base, ctx, st, out, ends);
    } else {
      LoopInScope(ctx, labels, base, post, cont, |st.graph|);
      StmtExact(id, body, {}, inner, st);
      forall t: FlowId | t < base && Reason(inner, t, body')
        ensures Reason(ctx, t, ends)
      {
        LoopReasonOutside(ctx, labels, base, post, cont, t, body', ends);
      }
      LoopReached(body', labels, ends);
      ExplainedOtherwise(id, base, ctx, |st.graph|, inner, st, out, ends, body');
      if Gained(st.graph, out.graph, post) {
        LoopReasonPost(ctx, labels, base, post, cont, body');
      }
      if Gained(st.graph, out.graph, cont) {
        LoopReasonContinue(ctx, labels, base, post, cont, body');
      }
    }
  }

  lemma LoopReached(body: iset<Outcome>, labels: set<string>, ends: iset<Outcome>)
    requires PassedOn(body, labels, ends)
    ensures forall id :: Reached(id) in body ==> Reached(id) in ends
  {
  }

  lemma LoopInScope(ctx: Context, labels: set<string>, base: nat, post: FlowId, cont: FlowId, size: nat)
    requires InScope(ctx, labels, base) && base <= size && post < size && cont < size
    ensures InScope(LoopContext(ctx, post, cont), {}, size)
  {
    LoopContextTargets(ctx, post, cont);
  }

  function WhileBodyRun(s: Stmt, labels: set<string>): Machine -> Run
    requires s.While?
  {
    m => var r := Exec(s.body, {}, m); if GoesOn(r.outcome, labels) then ExecWhile(s, labels, r.machine) else LeaveLoop(r)
  }

  lemma WhileRuns(s: Stmt, labels: set<string>)
    requires s.While? && CanEval(s.cond, true)
    ensures var ends := EndsOf(LiveRun(s, labels));
            PassedOn(Ends(s.body, {}), labels, ends) && (Broke(None) in Ends(s.body, {}) ==> Completed in ends)
  {
    hide Eval, Exec, CanEval, EndsOf;
    var ends := EndsOf(LiveRun(s, labels));
    forall o | o in Ends(s.body, {}) && (Passes(o, labels) || o == Broke(None))
      ensures (if o == Broke(None) then Completed else o) in ends
    {
      var o' := if o == Broke(None) then Completed else o;
      RunInto(WhileBodyRun(s, labels), StmtRun(s.body, {}), o, o');
      forall m | Eval(s.cond, m).outcome == Value(true)
        ensures LiveRun(s, labels)(m) == WhileBodyRun(s, labels)(Eval(s.cond, m).machine)
      {
        assert ExecLive(s, labels, m) == ExecWhile(s, labels, m);
      }
      EvalThen(LiveRun(s, labels), s.cond, true, WhileBodyRun(s, labels), o');
    }
  }

  /** What leads out of a loop has come to its last label from the condition or from the body. */
  lemma LoopLeft(s0: State, s1: State, s2: State, done: State, pre: FlowId, top: FlowId, post: FlowId)
    requires Valid(done) && Antecedents(s0.graph, post) == [] && !Dead(Resume(done, post)) && pre != post
    requires done == JoinFrom(Join(s2, pre), pre, top)
    ensures Gained(s0.graph, s1.graph, post) || Gained(s1.graph, s2.graph, post)
  {
    hide Gained, Valid, Dead, AddAntecedent, FinishFlowLabel;
    ResumedGained(s0.graph, done, post);
    GainedTrans(s0.graph, s1.graph, done.graph, post);
    if Gained(s1.graph, done.graph, post) {
      GainedTrans(s1.graph, s2.graph, done.graph, post);
      if Gained(s2.graph, done.graph, post) {
        GainedTrans(s2.graph, Join(s2, pre).graph, done.graph, post);
        if Gained(s2.graph, Join(s2, pre).graph, post) {
          JoinGained(s2, pre, s2.flow, post);
        } else {
          JoinGained(Join(s2, pre), pre, top, post);
        }
      }
    }
  }

  lemma WhileEnds(s: Stmt, labels: set<string>)
    requires s.While? && CanEval(s.cond, false)
    ensures Completed in EndsOf(LiveRun(s, labels))
  {
    hide Eval, Exec, CanEval, EndsOf;
    forall m | Eval(s.cond, m).outcome == Value(false)
      ensures LiveRun(s, labels)(m) == Run(Completed, Eval(s.cond, m).machine)
    {
      assert ExecLive(s, labels, m) == ExecWhile(s, labels, m);
    }
    EvalInto(LiveRun(s, labels), s.cond, false, Completed);
  }

  lemma {:induction false} WhileExact(id: nat, s: Stmt, labels: set<string>, ctx: Context, st: State)
    requires s.While? && Plain(id, s, ShapeOf(ctx)) && Valid(st) && !Dead(st) && InScope(ctx, labels, |st.graph|)
    ensures Exact(id, |st.graph|, ctx, st, BindLive(s, ctx, st), EndsOf(LiveRun(s, labels)))
    decreases s, 2
  {
    hide Valid, Dead, BindStmt, BindCondition, Explained, Ends, EndsOf, CanEval, Extends, TargetsBelow, AddAntecedent,
         FinishFlowLabel, Gained, Targets, LoopContext, PassedOn, Grows;
    var s0, s1, s2, done := WhileStages(s, ctx, st);
    var base, ends := |st.graph|, EndsOf(LiveRun(s, labels));
    var pre, preBody, post := base, base + 1, base + 2;
    var r1 := Resume(s1, preBody);
    ScopeTargets(ctx, base);
    ExtendsLength(s0.graph, s1.graph);
    ExtendsLength(s1.graph, s2.graph);
    LabelsStep(id, base, ctx, st, s0, LOOP, ends);
    ConditionStep(id, base, ctx, s.cond, preBody, post, s0, ends);
    ExplainedNothing(id, base, ctx, s1, r1, ends);
    if !Dead(r1) {
      ConditionOpens(s.cond, preBody, post, ctx.exceptionTarget, s0, true);
      WhileRuns(s, labels);
    }
    LoopBodyExact(id, s.body, ctx, labels, base, post, pre, r1, ends);
    FlowInRange(s2);
    JoinStep(id, base, ctx, s2, pre, s2.flow, ends);
    JoinFromGrows(s2, pre, s2.flow);
    FlowInRange(st);
    JoinStep(id, base, ctx, Join(s2, pre), pre, st.flow, ends);
    ExplainedNothing(id, base, ctx, done, Resume(done, post), ends);
    ExplainedTrans(id, base, ctx, st, s0, s1, ends);
    ExplainedTrans(id, base, ctx, st, s1, r1, ends);
    ExplainedTrans(id, base, ctx, st, r1, s2, ends);
    ExplainedTrans(id, base, ctx, st, s2, Join(s2, pre), ends);
    ExplainedTrans(id, base, ctx, st, Join(s2, pre), done, ends);
    ExplainedTrans(id, base, ctx, st, done, Resume(done, post), ends);
    if !Dead(Resume(done, post)) {
      LoopLeft(s0, s1, s2, done, pre, st.flow, post);
      if Gained(s0.graph, s1.graph, post) {
        ConditionGained(s.cond, preBody, post, ctx.exceptionTarget, s0, s1, false);
        WhileEnds(s, labels);
      }
    }
  }

  function DoTestRun(s: Stmt, labels: set<string>): Machine -> Run
    requires s.Do?
  {
    m =>
      var c := Eval(s.cond, m);
      if !c.outcome.Value? then Abrupt(c)
      else if c.outcome.truthy then ExecDo(s, labels, c.machine)
      else Run(Completed, c.machine)
  }

  lemma DoUnfolds(s: Stmt, labels: set<string>, m: Machine)
    requires s.Do?
    ensures var r := Exec(s.body, {}, m);
            LiveRun(s, labels)(m) == if !GoesOn(r.outcome, labels) then LeaveLoop(r) else DoTestRun(s, labels)(r.machine)
  {
    hide Eval, Exec;
    assert ExecLive(s, labels, m) == ExecDo(s, labels, m);
  }

  lemma DoRuns(s: Stmt, labels: set<string>)
    requires s.Do?
    ensures var ends := EndsOf(LiveRun(s, labels));
            && PassedOn(Ends(s.body, {}), labels, ends) && (Broke(None) in Ends(s.body, {}) ==> Completed in ends)
            && (ComesBack(Ends(s.body, {}), labels) && CanEval(s.cond, false) ==> Completed in ends)
  {
    hide Eval, Exec, CanEval, EndsOf, ExecLive, ExecDo;
    var ends := EndsOf(LiveRun(s, labels));
    forall m
      ensures var r := Exec(s.body, {}, m);
              LiveRun(s, labels)(m) == if !GoesOn(r.outcome, labels) then LeaveLoop(r) else DoTestRun(s, labels)(r.machine)
    {
      DoUnfolds(s, labels, m);
    }
    forall o | o in Ends(s.body, {}) && (Passes(o, labels) || o == Broke(None))
      ensures (if o == Broke(None) then Completed else o) in ends
    {
      RunInto(LiveRun(s, labels), StmtRun(s.body, {}), o, if o == Broke(None) then Completed else o);
    }
    if ComesBack(Ends(s.body, {}), labels) && CanEval(s.cond, false) {
      var o :| o in Ends(s.body, {}) && GoesOn(o, labels);
      EvalInto(DoTestRun(s, labels), s.cond, false, Completed);
      RunThen(LiveRun(s, labels), StmtRun(s.body, {}), o, DoTestRun(s, labels), Completed);
    }
  }

  lemma {:induction false} DoExact(id: nat, s: Stmt, labels: set<string>, ctx: Context, st: State)
    requires s.Do? && Plain(id, s, ShapeOf(ctx)) && Valid(st) && !Dead(st) && InScope(ctx, labels, |st.graph|)
    ensures Exact(id, |st.graph|, ctx, st, BindLive(s, ctx, st), EndsOf(LiveRun(s, labels)))
    decreases s, 2
  {
    hide Valid, Dead, BindStmt, BindCondition, Explained, Ends, EndsOf, CanEval, Extends, TargetsBelow, AddAntecedent,
         FinishFlowLabel, Gained, Targets, LoopContext, PassedOn, ComesBack, Grows;
    var s0, b, s1, s2, done := DoStages(s, ctx, st);
    var base, ends := |st.graph|, EndsOf(LiveRun(s, labels));
    var pre, preCondition, post := base, base + 1, base + 2;
    ScopeTargets(ctx, base);
    ExtendsLength(s0.graph, b.graph);
    ExtendsLength(s0.graph, s1.graph);
    ExtendsLength(s0.graph, s2.graph);
    LabelsStep(id, base, ctx, st, s0, LOOP, ends);
    DoRuns(s, labels);
    LoopBodyExact(id, s.body, ctx, labels, base, post, preCondition, s0, ends);
    FlowInRange(b);
    JoinStep(id, base, ctx, b, preCondition, b.flow, ends);
    ExplainedNothing(id, base, ctx, Join(b, preCondition), s1, ends);
    ConditionStep(id, base, ctx, s.cond, pre, post, s1, ends);
    FlowInRange(st);
    JoinStep(id, base, ctx, s2, pre, st.flow, ends);
    ExplainedNothing(id, base, ctx, done, Resume(done, post), ends);
    ExplainedTrans(id, base, ctx, st, s0, b, ends);
    ExplainedTrans(id, base, ctx, st, b, Join(b, preCondition), ends);
    ExplainedTrans(id, base, ctx, st, Join(b, preCondition), s1, ends);
    ExplainedTrans(id, base, ctx, st, s1, s2, ends);
    ExplainedTrans(id, base, ctx, st, s2, done, ends);
    ExplainedTrans(id, base, ctx, st, done, Resume(done, post), ends);
    if !Dead(Resume(done, post)) {
      DoLeft(s, ctx, st, s0, b, s1, s2, done);
      if Gained(s1.graph, s2.graph, post) {
        DoCondition(s, ctx, labels, st, s0, b, s1, s2, done);
      }
    }
  }

  lemma DoLeft(s: Stmt, ctx: Context, st: State, s0: State, b: State, s1: State, s2: State, done: State)
    requires DoStaged(s, ctx, st, s0, b, s1, s2, done) && !Dead(Resume(done, |st.graph| + 2))
    ensures Gained(s0.graph, b.graph, |st.graph| + 2) || Gained(s1.graph, s2.graph, |st.graph| + 2)
  {
    hide Gained, Valid, Dead, AddAntecedent, FinishFlowLabel, Extends, BindStmt, BindCondition;
    var pre, preCondition, post := |st.graph|, |st.graph| + 1, |st.graph| + 2;
    ResumedGained(s0.graph, done, post);
    GainedTrans(s0.graph, b.graph, done.graph, post);
    if Gained(b.graph, done.graph, post) {
      GainedTrans(b.graph, s1.graph, done.graph, post);
      if Gained(b.graph, s1.graph, post) {
        JoinGained(b, preCondition, b.flow, post);
      } else {
        GainedTrans(s1.graph, s2.graph, done.graph, post);
        if Gained(s2.graph, done.graph, post) {
          JoinGained(s2, pre, st.flow, post);
        }
      }
    }
  }

  /** The condition is reached from the end of the body or from a `continue`. */
  lemma DoCondition(s: Stmt, ctx: Context, labels: set<string>, st: State, s0: State, b: State, s1: State, s2: State,
                    done: State)
    requires DoStaged(s, ctx, st, s0, b, s1, s2, done) && Open(s.cond) && TargetsBelow(ctx, |st.graph|)
    requires Gained(s1.graph, s2.graph, |st.graph| + 2)
    requires !Dead(b) ==> Completed in Ends(s.body, {})
    requires Gained(s0.graph, b.graph, |st.graph| + 1) ==> ComesBack(Ends(s.body, {}), labels)
    ensures CanEval(s.cond, false) && ComesBack(Ends(s.body, {}), labels)
  {
    hide Gained, Valid, AddAntecedent, FinishFlowLabel, Extends, BindStmt, BindCondition, CanEval, Ends, Targets, Grows;
    var pre, preCondition, post := |st.graph|, |st.graph| + 1, |st.graph| + 2;
    ScopeTargets(ctx, pre);
    ExtendsLength(s0.graph, s1.graph);
    if Dead(s1) {
      DeadCondition(s.cond, pre, post, ctx.exceptionTarget, s1);
      NoGain(s1.graph, post);
    } else {
      ConditionGained(s.cond, pre, post, ctx.exceptionTarget, s1, s2, false);
      FlowInRange(b);
      JoinFromGrows(b, preCondition, b.flow);
      ResumedGained(s0.graph, Join(b, preCondition), preCondition);
      GainedTrans(s0.graph, b.graph, Join(b, preCondition).graph, preCondition);
      if !Gained(s0.graph, b.graph, preCondition) {
        JoinGained(b, preCondition, b.flow, preCondition);
        BodyCompletes(b, s, labels);
      }
    }
  }

  lemma BodyCompletes(b: State, s: Stmt, labels: set<string>)
    requires s.Do? && (!Dead(b) ==> Completed in Ends(s.body, {})) && !Dead(b)
    ensures ComesBack(Ends(s.body, {}), labels)
  {
    hide Ends;
    assert GoesOn(Completed, labels);
  }

  // ----- for -----

  /** An absent expression is true. */
  ghost predicate CanEvalOptional(e: Option<Expr>, b: bool) {
    match e
    case None => b
    case Some(x) => CanEval(x, b)
  }

  lemma OptionalValue(e: Option<Expr>) returns (b: bool)
    ensures CanEvalOptional(e, b)
  {
    hide CanEval;
    b := true;
    if e.Some? {
      b := AnyValue(e.value);
    }
  }

  lemma OptionalThen(run: Machine -> Run, e: Option<Expr>, b: bool, next: Machine -> Run, o: Outcome)
    requires CanEvalOptional(e, b) && o in EndsOf(next)
    requires forall m :: EvalOptional(e, m).outcome == Value(b) ==> run(m) == next(EvalOptional(e, m).machine)
    ensures o in EndsOf(run)
  {
    hide Eval, CanEval, RunsBy;
    match e
    case None =>
      var c :| RunsBy(next, o, c);
      forall m
        ensures run(m) == next(m)
      {
        assert EvalOptional(e, m) == ExprRun(Value(true), m);
      }
      SameRuns(run, next, o, c);
    case Some(x) =>
      forall m | Eval(x, m).outcome == Value(b)
        ensures run(m) == next(Eval(x, m).machine)
      {
        assert EvalOptional(e, m) == Eval(x, m);
      }
      EvalThen(run, x, b, next, o);
  }

  lemma SameRuns(run: Machine -> Run, next: Machine -> Run, o: Outcome, c: seq<Choice>)
    requires RunsBy(next, o, c) && forall m :: run(m) == next(m)
    ensures o in EndsOf(run)
  {
    forall past, rest
      ensures RunEnds(run, o, c, past, rest)
    {
      assert RunEnds(next, o, c, past, rest);
    }
    assert RunsBy(run, o, c);
  }

  lemma OptionalInto(run: Machine -> Run, e: Option<Expr>, b: bool, o: Outcome)
    requires CanEvalOptional(e, b) && e.Some?
    requires forall m :: EvalOptional(e, m).outcome == Value(b) ==> run(m) == Run(o, EvalOptional(e, m).machine)
    ensures o in EndsOf(run)
  {
    hide Eval, CanEval;
    forall m | Eval(e.value, m).outcome == Value(b)
      ensures run(m) == Run(o, Eval(e.value, m).machine)
    {
      assert EvalOptional(e, m) == Eval(e.value, m);
    }
    EvalInto(run, e.value, b, o);
  }

  lemma OptionalStep(id: nat, base: nat, ctx: Context, e: Option<Expr>, st: State, ends: iset<Outcome>)
    requires Valid(st) && base <= |st.graph|
    ensures Explained(id, base, ctx, st, BindOptional(e, ctx.exceptionTarget, st), ends)
  {
    hide BindExpr, Valid, Explained;
    match e
    case None => ExplainedNothing(id, base, ctx, st, st, ends);
    case Some(x) => ExprStep(id, base, ctx, x, st, ends);
  }

  lemma OptionalConditionStep(id: nat, base: nat, ctx: Context, e: Option<Expr>, t: FlowId, f: FlowId, st: State,
                              ends: iset<Outcome>)
    requires Valid(st) && base <= t && base <= f && base <= |st.graph|
    ensures Explained(id, base, ctx, st, BindOptionalCondition(e, t, f, ctx.exceptionTarget, st), ends)
  {
    hide BindCondition, Valid, Explained, Grows, AddAntecedent, CreateCondition;
    OptionalConditionGrows(e, t, f, ctx.exceptionTarget, st);
    match e
    case None =>
      ExplainedStep(id, base, ctx, st, BindOptionalCondition(e, t, f, ctx.exceptionTarget, st), {t, f} + Optional(ctx.exceptionTarget), ends);
    case Some(x) => ConditionStep(id, base, ctx, x, t, f, st, ends);
  }

  lemma OptionalConditionGained(e: Option<Expr>, t: FlowId, f: FlowId, exc: Option<FlowId>, st: State, b: bool)
    requires Valid(st) && (e.Some? ==> Open(e.value)) && t < |st.graph| && f < |st.graph| && t != f
    requires Outside(exc, t, f, st)
    requires Gained(st.graph, BindOptionalCondition(e, t, f, exc, st).graph, TargetFor(b, t, f))
    ensures CanEvalOptional(e, b) && (!b ==> e.Some?)
  {
    hide BindCondition, CanEval;
    match e
    case None =>
      if !b {
        NoFalse(t, f, st);
      }
    case Some(x) => ConditionExact(x, t, f, exc, st, b);
  }

  /** Without a condition nothing leads to the label for a false one. */
  lemma NoFalse(t: FlowId, f: FlowId, st: State)
    requires Valid(st) && t != f
    ensures !Gained(st.graph, AddConditions(st, t, f, None).graph, f)
  {
    var s1 := AddCondition(st, t, true, None);
    assert IsUnreachable(s1.graph, UNREACHABLE_FLOW);
  }

  function ForRun(s: Stmt, labels: set<string>): Machine -> Run
    requires s.For?
  {
    m => ExecFor(s, labels, m)
  }

  function ForBodyRun(s: Stmt, labels: set<string>): Machine -> Run
    requires s.For?
  {
    m =>
      var r := Exec(s.body, {}, m);
      if !GoesOn(r.outcome, labels) then LeaveLoop(r)
      else
        var i := EvalOptional(s.incr, r.machine);
        if i.outcome.Value? then ExecFor(s, labels, i.machine) else Abrupt(i)
  }

  lemma ForBegins(s: Stmt, labels: set<string>, o: Outcome)
    requires s.For? && o in EndsOf(ForRun(s, labels))
    ensures o in EndsOf(LiveRun(s, labels))
  {
    hide EvalOptional, ExecFor, EndsOf;
    var b := OptionalValue(s.init);
    OptionalThen(LiveRun(s, labels), s.init, b, ForRun(s, labels), o);
  }

  lemma ForRuns(s: Stmt, labels: set<string>)
    requires s.For?
    ensures var ends := EndsOf(LiveRun(s, labels));
            && (CanEvalOptional(s.test, true) ==> PassedOn(Ends(s.body, {}), labels, ends))
            && (CanEvalOptional(s.test, true) && Broke(None) in Ends(s.body, {}) ==> Completed in ends)
            && (CanEvalOptional(s.test, false) && s.test.Some? ==> Completed in ends)
  {
    hide EvalOptional, Exec, CanEvalOptional, EndsOf, ExecLive;
    var ends := EndsOf(LiveRun(s, labels));
    if CanEvalOptional(s.test, true) {
      forall o | o in Ends(s.body, {}) && (Passes(o, labels) || o == Broke(None))
        ensures (if o == Broke(None) then Completed else o) in ends
      {
        var o' := if o == Broke(None) then Completed else o;
        RunInto(ForBodyRun(s, labels), StmtRun(s.body, {}), o, o');
        OptionalThen(ForRun(s, labels), s.test, true, ForBodyRun(s, labels), o');
        ForBegins(s, labels, o');
      }
    }
    if CanEvalOptional(s.test, false) && s.test.Some? {
      OptionalInto(ForRun(s, labels), s.test, false, Completed);
      ForBegins(s, labels, Completed);
    }
  }

  lemma {:induction false} ForExact(id: nat, s: Stmt, labels: set<string>, ctx: Context, st: State)
    requires s.For? && Plain(id, s, ShapeOf(ctx)) && Valid(st) && !Dead(st) && InScope(ctx, labels, |st.graph|)
    ensures Exact(id, |st.graph|, ctx, st, BindLive(s, ctx, st), EndsOf(LiveRun(s, labels)))
    decreases s, 2
  {
    hide Valid, Dead, BindStmt, BindOptional, BindOptionalCondition, Explained, Ends, EndsOf, CanEvalOptional, Extends,
         TargetsBelow, AddAntecedent, FinishFlowLabel, Gained, Targets, LoopContext, PassedOn, Grows;
    var s0, s1, s2, s3, s4, done := ForStages(s, ctx, st);
    var base, ends := |st.graph|, EndsOf(LiveRun(s, labels));
    var pre, preBody, post := base, base + 1, base + 2;
    var t1, r2 := s1.(flow := pre), Resume(s2, preBody);
    ScopeTargets(ctx, base);
    ExtendsLength(s0.graph, s1.graph);
    ExtendsLength(s0.graph, s2.graph);
    ExtendsLength(s0.graph, s3.graph);
    ExtendsLength(s3.graph, s4.graph);
    LabelsStep(id, base, ctx, st, s0, LOOP, ends);
    OptionalStep(id, base, ctx, s.init, s0, ends);
    ExplainedNothing(id, base, ctx, s1, t1, ends);
    OptionalConditionStep(id, base, ctx, s.test, preBody, post, t1, ends);
    ExplainedNothing(id, base, ctx, s2, r2, ends);
    ForRuns(s, labels);
    if !Dead(r2) {
      ForOpens(s, ctx, st, s0, s1, s2);
    }
    LoopBodyExact(id, s.body, ctx, labels, base, post, pre, r2, ends);
    OptionalStep(id, base, ctx, s.incr, s3, ends);
    FlowInRange(s4);
    JoinStep(id, base, ctx, s4, pre, s4.flow, ends);
    JoinFromGrows(s4, pre, s4.flow);
    JoinStep(id, base, ctx, Join(s4, pre), pre, s1.flow, ends);
    ExplainedNothing(id, base, ctx, done, Resume(done, post), ends);
    ExplainedTrans(id, base, ctx, st, s0, s1, ends);
    ExplainedTrans(id, base, ctx, st, s1, t1, ends);
    ExplainedTrans(id, base, ctx, st, t1, s2, ends);
    ExplainedTrans(id, base, ctx, st, s2, r2, ends);
    ExplainedTrans(id, base, ctx, st, r2, s3, ends);
    ExplainedTrans(id, base, ctx, st, s3, s4, ends);
    ExplainedTrans(id, base, ctx, st, s4, Join(s4, pre), ends);
    ExplainedTrans(id, base, ctx, st, Join(s4, pre), done, ends);
    ExplainedTrans(id, base, ctx, st, done, Resume(done, post), ends);
    if !Dead(Resume(done, post)) {
      ForLeft(s, ctx, st, s0, s1, s2, s3, s4, done);
      if Gained(t1.graph, s2.graph, post) {
        OptionalConditionGained(s.test, preBody, post, ctx.exceptionTarget, t1, false);
      }
    }
  }

  /** The body label gains antecedents from the condition only. */
  lemma ForOpens(s: Stmt, ctx: Context, st: State, s0: State, s1: State, s2: State)
    requires s.For? && (s.test.Some? ==> Open(s.test.value)) && s0 == NewLabels(st, LOOP)
    requires s1 == BindOptional(s.init, ctx.exceptionTarget, s0)
    requires s2 == BindOptionalCondition(s.test, |st.graph| + 1, |st.graph| + 2, ctx.exceptionTarget, s1.(flow := |st.graph|))
    requires Valid(s0) && Valid(s1.(flow := |st.graph|)) && Valid(s2) && Extends(s0.graph, s1.graph)
    requires TargetsBelow(ctx, |st.graph|)
    requires !Dead(Resume(s2, |st.graph| + 1))
    ensures CanEvalOptional(s.test, true)
  {
    hide Valid, Dead, BindOptional, BindOptionalCondition, CanEvalOptional, Extends, FinishFlowLabel, Gained, Targets,
         Grows;
    var preBody := |st.graph| + 1;
    ScopeTargets(ctx, |st.graph|);
    ExtendsLength(s0.graph, s1.graph);
    OptionalGrows(s.init, ctx.exceptionTarget, s0);
    ResumedGained(s0.graph, s2, preBody);
    GainedTrans(s0.graph, s1.graph, s2.graph, preBody);
    NotGained(Optional(ctx.exceptionTarget), s0, s1, preBody);
    OptionalConditionGained(s.test, preBody, preBody + 1, ctx.exceptionTarget, s1.(flow := |st.graph|), true);
  }

  lemma ForLeft(s: Stmt, ctx: Context, st: State, s0: State, s1: State, s2: State, s3: State, s4: State, done: State)
    requires ForStaged(s, ctx, st, s0, s1, s2, s3, s4, done) && TargetsBelow(ctx, |st.graph|)
    requires !Dead(Resume(done, |st.graph| + 2))
    ensures Gained(s1.graph, s2.graph, |st.graph| + 2) || Gained(s2.graph, s3.graph, |st.graph| + 2)
  {
    hide Gained, Valid, Dead, AddAntecedent, FinishFlowLabel, Extends, BindStmt, BindOptional, BindOptionalCondition,
         Targets, Grows;
    var pre, post := |st.graph|, |st.graph| + 2;
    ScopeTargets(ctx, pre);
    ExtendsLength(s0.graph, s3.graph);
    OptionalGrows(s.init, ctx.exceptionTarget, s0);
    NotGained(Optional(ctx.exceptionTarget), s0, s1, post);
    OptionalGrows(s.incr, ctx.exceptionTarget, s3);
    NotGained(Optional(ctx.exceptionTarget), s3, s4, post);
    LoopLeft(s0, s3, s4, done, pre, s1.flow, post);
    GainedTrans(s0.graph, s1.graph, s3.graph, post);
    GainedTrans(s1.graph, s2.graph, s3.graph, post);
  }

  // ----- for-of -----

  function ForOfRun(s: Stmt, labels: set<string>): Machine -> Run
    requires s.ForOf?
  {
    m => ExecForOf(s, labels, m)
  }

  function ForOfBodyRun(s: Stmt, labels: set<string>): Machine -> Run
    requires s.ForOf?
  {
    m => var r := Exec(s.body, {}, m); if GoesOn(r.outcome, labels) then ExecForOf(s, labels, r.machine) else LeaveLoop(r)
  }

  /** The iterator may or may not have another element. */
  lemma ForOfIterator(s: Stmt, labels: set<string>, o: Outcome)
    requires s.ForOf?
    ensures Completed in EndsOf(ForOfRun(s, labels))
    ensures o in EndsOf(ForOfBodyRun(s, labels)) ==> o in EndsOf(ForOfRun(s, labels))
  {
    hide Exec, EndsOf;
    ChoiceInto(ForOfRun(s, labels), No, Completed);
    if o in EndsOf(ForOfBodyRun(s, labels)) {
      ChoiceThen(ForOfRun(s, labels), Yes, [Assigned(s.target)], ForOfBodyRun(s, labels), o);
    }
  }

  lemma ForOfBegins(s: Stmt, labels: set<string>, o: Outcome)
    requires s.ForOf? && o in EndsOf(ForOfRun(s, labels))
    ensures o in EndsOf(LiveRun(s, labels))
  {
    hide Eval, ExecForOf, EndsOf, CanEval;
    var b := AnyValue(s.expr);
    EvalThen(LiveRun(s, labels), s.expr, b, ForOfRun(s, labels), o);
  }

  lemma ForOfRuns(s: Stmt, labels: set<string>)
    requires s.ForOf?
    ensures PassedOn(Ends(s.body, {}), labels, EndsOf(LiveRun(s, labels))) && Completed in EndsOf(LiveRun(s, labels))
  {
    hide Exec, EndsOf, ExecLive;
    forall o | o in Ends(s.body, {}) && Passes(o, labels)
      ensures o in EndsOf(LiveRun(s, labels))
    {
      RunInto(ForOfBodyRun(s, labels), StmtRun(s.body, {}), o, o);
      ForOfIterator(s, labels, o);
      ForOfBegins(s, labels, o);
    }
    ForOfIterator(s, labels, Completed);
    ForOfBegins(s, labels, Completed);
  }

  lemma {:induction false} ForOfExact(id: nat, s: Stmt, labels: set<string>, ctx: Context, st: State)
    requires s.ForOf? && Plain(id, s, ShapeOf(ctx)) && Valid(st) && !Dead(st) && InScope(ctx, labels, |st.graph|)
    ensures Exact(id, |st.graph|, ctx, st, BindLive(s, ctx, st), EndsOf(LiveRun(s, labels)))
    decreases s, 2
  {
    hide Valid, Dead, BindStmt, BindExpr, Explained, Ends, EndsOf, Extends, TargetsBelow, AddAntecedent,
         FinishFlowLabel, Gained, Targets, LoopContext, PassedOn, Grows, Mutate;
    var s0, s1, t1, s2, s3, done := ForOfStages(s, ctx, st);
    var base, ends := |st.graph|, EndsOf(LiveRun(s, labels));
    var pre, post, p1 := base, base + 1, s1.(flow := base);
    ExtendsLength(s0.graph, s1.graph);
    ExtendsLength(s0.graph, t1.graph);
    ExtendsLength(s0.graph, s2.graph);
    ExtendsLength(s0.graph, s3.graph);
    LabelsStep(id, base, ctx, st, s0, [LoopLabel([]), BranchLabel([])], ends);
    ExprStep(id, base, ctx, s.expr, s0, ends);
    ExplainedNothing(id, base, ctx, s1, p1, ends);
    JoinStep(id, base, ctx, p1, post, pre, ends);
    MutateStep(id, base, ctx, s.target, t1, ends);
    ForOfRuns(s, labels);
    LoopBodyExact(id, s.body, ctx, labels, base, post, pre, s2, ends);
    FlowInRange(s3);
    JoinStep(id, base, ctx, s3, pre, s3.flow, ends);
    JoinFromGrows(s3, pre, s3.flow);
    JoinStep(id, base, ctx, Join(s3, pre), pre, s1.flow, ends);
    ExplainedNothing(id, base, ctx, done, Resume(done, post), ends);
    ExplainedTrans(id, base, ctx, st, s0, s1, ends);
    ExplainedTrans(id, base, ctx, st, s1, p1, ends);
    ExplainedTrans(id, base, ctx, st, p1, t1, ends);
    ExplainedTrans(id, base, ctx, st, t1, s2, ends);
    ExplainedTrans(id, base, ctx, st, s2, s3, ends);
    ExplainedTrans(id, base, ctx, st, s3, Join(s3, pre), ends);
    ExplainedTrans(id, base, ctx, st, Join(s3, pre), done, ends);
    ExplainedTrans(id, base, ctx, st, done, Resume(done, post), ends);
  }

  // ----- labels -----

  lemma LabeledRuns(s: Stmt, labels: set<string>, o: Outcome)
    requires s.Labeled? && o in Ends(s.body, labels + {s.name})
    ensures var ends := EndsOf(LiveRun(s, labels));
            && (o == Broke(Some(s.name)) ==> Completed in ends)
            && (o != Broke(Some(s.name)) && o != Continued(Some(s.name)) ==> o in ends)
  {
    hide Exec, EndsOf;
    if o == Broke(Some(s.name)) {
      RunInto(LiveRun(s, labels), StmtRun(s.body, labels + {s.name}), o, Completed);
    } else if o != Continued(Some(s.name)) {
      RunInto(LiveRun(s, labels), StmtRun(s.body, labels + {s.name}), o, o);
    }
  }

  lemma LabelInScope(ctx: Context, labels: set<string>, name: string, post: FlowId)
    requires InScope(ctx, labels, post)
    ensures InScope(LabelContext(ctx, name, post), labels + {name}, post + 1)
  {
    var inner := LabelContext(ctx, name, post);
    LabelContextTargets(ctx, name, post);
    assert inner.labels[1..] == ctx.labels;
    forall i | 0 <= i < inner.wrapping && i < |inner.labels|
      ensures inner.labels[i].name in labels + {name}
    {
      if i > 0 {
        assert inner.labels[i] == ctx.labels[i - 1];
      }
    }
    forall n | n in labels + {name}
      ensures exists i :: 0 <= i < inner.wrapping && i < |inner.labels| && inner.labels[i].name == n
    {
      if n in labels {
        var i :| 0 <= i < ctx.wrapping && i < |ctx.labels| && ctx.labels[i].name == n;
        assert inner.labels[i + 1].name == n;
      } else {
        assert inner.labels[0].name == n;
      }
    }
  }

  lemma LabelReason(ctx: Context, labels: set<string>, s: Stmt, post: FlowId, t: FlowId, body: iset<Outcome>,
                    ends: iset<Outcome>)
    requires s.Labeled? && TargetsBelow(ctx, post) && t < post && Reason(LabelContext(ctx, s.name, post), t, body)
    requires forall o :: o in body && o != Broke(Some(s.name)) && o != Continued(Some(s.name)) ==> o in ends
    ensures Reason(ctx, t, ends)
  {
    var inner := LabelContext(ctx, s.name, post);
    assert inner.labels[1..] == ctx.labels;
    if d :| Broke(d) in body && BreakTarget(inner, d) == Some(t) {
      assert BreakTarget(ctx, d) == Some(t);
    } else if d :| Continued(d) in body && ContinueTarget(inner, d) == Some(t) {
      assert ContinueTarget(ctx, d) == Some(t);
    }
  }

  lemma LabelReasonPost(ctx: Context, s: Stmt, post: FlowId, body: iset<Outcome>)
    requires s.Labeled? && TargetsBelow(ctx, post) && Reason(LabelContext(ctx, s.name, post), post, body)
    ensures Broke(Some(s.name)) in body
  {
    hide Targets;
    var inner := LabelContext(ctx, s.name, post);
    assert inner.labels[1..] == ctx.labels;
    ScopeTargets(ctx, post);
    if d :| Broke(d) in body && BreakTarget(inner, d) == Some(post) {
      JumpsBelow(ctx, post, d);
    } else if d :| Continued(d) in body && ContinueTarget(inner, d) == Some(post) {
      JumpsBelow(ctx, post, d);
    }
  }

  lemma {:induction false} LabeledExact(id: nat, s: Stmt, labels: set<string>, ctx: Context, st: State)
    requires s.Labeled? && Plain(id, s, ShapeOf(ctx)) && Valid(st) && !Dead(st) && InScope(ctx, labels, |st.graph|)
    ensures Exact(id, |st.graph|, ctx, st, BindLive(s, ctx, st), EndsOf(LiveRun(s, labels)))
    decreases s, 2
  {
    hide Valid, BindStmt, Explained, EndsOf, Ends, TargetsBelow, AddAntecedent, FinishFlowLabel, Gained, Targets,
         LabelContext, Grows, Reason;
    var base, post, ends := |st.graph|, |st.graph|, EndsOf(LiveRun(s, labels));
    var s0 := NewNode(st, BranchLabel([]));
    var inner, body := LabelContext(ctx, s.name, post), Ends(s.body, labels + {s.name});
    var s1 := BindStmt(s.body, inner, s0);
    FlowInRange(st);
    AppendGrows(st, s0, [BranchLabel([])]);
    LabelsStep(id, base, ctx, st, s0, [BranchLabel([])], ends);
    LabelInScope(ctx, labels, s.name, post);
    LabelShapeOf(ctx, s.name, post);
    StmtExact(id, s.body, labels + {s.name}, inner, s0);
    StmtGrows(s.body, inner, s0);
    GrowsExtends(Targets(inner), s0, s1);
    forall o | o in body
      ensures o == Broke(Some(s.name)) ==> Completed in ends
      ensures o != Broke(Some(s.name)) && o != Continued(Some(s.name)) ==> o in ends
    {
      LabeledRuns(s, labels, o);
    }
    forall t: FlowId | t < base && Reason(inner, t, body)
      ensures Reason(ctx, t, ends)
    {
      LabelReason(ctx, labels, s, post, t, body, ends);
    }
    ExplainedOtherwise(id, base, ctx, |s0.graph|, inner, s0, s1, ends, body);
    FlowInRange(s1);
    JoinStep(id, base, ctx, s1, post, s1.flow, ends);
    ExplainedNothing(id, base, ctx, Join(s1, post), Resume(Join(s1, post), post), ends);
    ExplainedTrans(id, base, ctx, st, s0, s1, ends);
    ExplainedTrans(id, base, ctx, st, s1, Join(s1, post), ends);
    ExplainedTrans(id, base, ctx, st, Join(s1, post), Resume(Join(s1, post), post), ends);
    if !Dead(Resume(Join(s1, post), post)) {
      JoinFromGrows(s1, post, s1.flow);
      ResumedGained(s0.graph, Join(s1, post), post);
      GainedTrans(s0.graph, s1.graph, Join(s1, post).graph, post);
      if Gained(s0.graph, s1.graph, post) {
        GainedReason(id, |s0.graph|, inner, s0, s1, body, post);
        LabelReasonPost(ctx, s, post, body);
      } else {
        JoinGained(s1, post, s1.flow, post);
      }
    }
  }

  lemma GainedReason(id: nat, base: nat, ctx: Context, a: State, b: State, ends: iset<Outcome>, t: FlowId)
    requires Explained(id, base, ctx, a, b, ends) && t < base && Gained(a.graph, b.graph, t)
    ensures Reason(ctx, t, ends)
  {
  }

  // ----- sequences -----

  lemma SeqRuns(ss: seq<Stmt>)
    requires ss != []
    ensures forall o :: o in Ends(ss[0], {}) && !o.Completed? ==> o in EndsOf(SeqRun(ss))
    ensures Completed in Ends(ss[0], {}) ==> EndsOf(SeqRun(ss[1..])) <= EndsOf(SeqRun(ss))
  {
    hide Exec, EndsOf;
    forall o | o in Ends(ss[0], {}) && !o.Completed?
      ensures o in EndsOf(SeqRun(ss))
    {
      RunInto(SeqRun(ss), StmtRun(ss[0], {}), o, o);
    }
    forall o | Completed in Ends(ss[0], {}) && o in EndsOf(SeqRun(ss[1..]))
      ensures o in EndsOf(SeqRun(ss))
    {
      RunThen(SeqRun(ss), StmtRun(ss[0], {}), Completed, SeqRun(ss[1..]), o);
    }
  }

  /** Reasons never are that something completes. */
  lemma ReasonAbrupt(ctx: Context, t: FlowId, ends: iset<Outcome>, ends': iset<Outcome>)
    requires Reason(ctx, t, ends) && forall o :: o in ends && !o.Completed? ==> o in ends'
    ensures Reason(ctx, t, ends')
  {
  }

  lemma ExplainedAbrupt(id: nat, base: nat, base': nat, ctx: Context, a: State, b: State, ends: iset<Outcome>,
                        ends': iset<Outcome>)
    requires Explained(id, base', ctx, a, b, ends) && base <= base' && forall o :: o in ends && !o.Completed? ==> o in ends'
    ensures Explained(id, base, ctx, a, b, ends')
  {
    hide Gained, Reason;
    forall t: FlowId | t < base && Reason(ctx, t, ends)
      ensures Reason(ctx, t, ends')
    {
      ReasonAbrupt(ctx, t, ends, ends');
    }
    ExplainedOtherwise(id, base, ctx, base', ctx, a, b, ends', ends);
  }

  /** Statements one after the other, wherever the flow before them comes from. */
  lemma {:induction false} SeqExact(id: nat, ss: seq<Stmt>, ctx: Context, st: State, base: nat, ends: iset<Outcome>)
    requires PlainSeq(id, ss, ShapeOf(ctx)) && Valid(st) && InScope(ctx, {}, |st.graph|) && base <= |st.graph|
    requires !Dead(st) ==> forall o :: o in EndsOf(SeqRun(ss)) && !o.Completed? ==> o in ends
    ensures Explained(id, base, ctx, st, BindEach(ss, ctx, st), ends)
    ensures !Dead(BindEach(ss, ctx, st)) ==> !Dead(st) && Completed in EndsOf(SeqRun(ss))
    decreases ss, 0
  {
    hide Valid, Dead, BindStmt, Explained, Ends, EndsOf, InScope, Plain, ShapeOf;
    if ss == [] {
      ExplainedNothing(id, base, ctx, st, st, ends);
      RunNow(SeqRun(ss), Completed);
    } else {
      var s1 := BindStmt(ss[0], ctx, st);
      SeqRuns(ss);
      if Dead(st) {
        DeadStmtQuiet(id, ss[0], ctx, st);
        QuietExplained(id, base, ctx, st, s1, ends);
        SameScope(ctx, |st.graph|, |s1.graph|);
      } else {
        StmtExact(id, ss[0], {}, ctx, st);
        ExplainedAbrupt(id, base, |st.graph|, ctx, st, s1, Ends(ss[0], {}), ends);
        StmtEarlier(ss[0], ctx, st);
        EarlierLength(st, s1);
        SameScope(ctx, |st.graph|, |s1.graph|);
      }
      SeqExact(id, ss[1..], ctx, s1, base, ends);
      ExplainedTrans(id, base, ctx, st, s1, BindEach(ss, ctx, st), ends);
    }
  }

  lemma EarlierLength(a: State, b: State)
    requires Earlier(a, b)
    ensures |a.graph| <= |b.graph| && Valid(b)
  {
  }

  lemma SameScope(ctx: Context, size: nat, size': nat)
    requires InScope(ctx, {}, size) && size <= size'
    ensures InScope(ctx, {}, size')
  {
  }

  /** The statements of a block that are no functions, after the functions have been bound. */
  lemma {:induction false} OthersExact(id: nat, ss: seq<Stmt>, ctx: Context, st: State, base: nat, ends: iset<Outcome>)
    requires PlainSeq(id, ss, ShapeOf(ctx)) && Valid(st) && InScope(ctx, {}, |st.graph|) && base <= |st.graph|
    requires !Dead(st) ==> forall o :: o in EndsOf(SeqRun(ss)) && !o.Completed? ==> o in ends
    ensures Explained(id, base, ctx, st, BindOthers(ss, ctx, st), ends)
    ensures !Dead(BindOthers(ss, ctx, st)) ==> !Dead(st) && Completed in EndsOf(SeqRun(ss))
    decreases ss, 0
  {
    hide Valid, Dead, BindStmt, Explained, Ends, EndsOf, InScope, Plain, ShapeOf;
    if ss == [] {
      ExplainedNothing(id, base, ctx, st, st, ends);
      RunNow(SeqRun(ss), Completed);
    } else {
      SeqRuns(ss);
      if ss[0].Function? {
        FunctionEnds(ss[0], {});
        OthersExact(id, ss[1..], ctx, st, base, ends);
      } else {
        var s1 := BindStmt(ss[0], ctx, st);
        if Dead(st) {
          DeadStmtQuiet(id, ss[0], ctx, st);
          QuietExplained(id, base, ctx, st, s1, ends);
        } else {
          StmtExact(id, ss[0], {}, ctx, st);
          ExplainedAbrupt(id, base, |st.graph|, ctx, st, s1, Ends(ss[0], {}), ends);
          StmtEarlier(ss[0], ctx, st);
          EarlierLength(st, s1);
        }
        SameScope(ctx, |st.graph|, |s1.graph|);
        OthersExact(id, ss[1..], ctx, s1, base, ends);
        ExplainedTrans(id, base, ctx, st, s1, BindOthers(ss, ctx, st), ends);
      }
    }
  }

  lemma {:induction false} BlockExact(id: nat, ss: seq<Stmt>, ctx: Context, st: State, base: nat, ends: iset<Outcome>)
    requires PlainSeq(id, ss, ShapeOf(ctx)) && Valid(st) && InScope(ctx, {}, |st.graph|) && base <= |st.graph|
    requires !Dead(st) ==> forall o :: o in EndsOf(SeqRun(ss)) && !o.Completed? ==> o in ends
    ensures Explained(id, base, ctx, st, BindBlock(ss, ctx, st), ends)
    ensures !Dead(BindBlock(ss, ctx, st)) ==> !Dead(st) && Completed in EndsOf(SeqRun(ss))
    decreases ss, 1
  {
    hide Valid, Dead, Explained, EndsOf, InScope, PlainSeq, ShapeOf, BindOthers, BindFunctions, BindDeads, Gained;
    if Dead(st) {
      DeadsQuiet(id, ss, ShapeOf(ctx), st);
      QuietExplained(id, base, ctx, st, BindDeads(ss, st), ends);
    } else {
      var s1 := BindFunctions(ss, st);
      FunctionsQuiet(id, ss, ShapeOf(ctx), st);
      QuietExplained(id, base, ctx, st, s1, ends);
      SameScope(ctx, |st.graph|, |s1.graph|);
      OthersExact(id, ss, ctx, s1, base, ends);
      ExplainedTrans(id, base, ctx, st, s1, BindBlock(ss, ctx, st), ends);
    }
  }

  // ----- switch -----

  ghost predicate SelectEnds(clauses: seq<Clause>, i: nat, sel: Selection, c: seq<Choice>, past: seq<Event>,
                             rest: seq<Choice>)
    requires i <= |clauses|
  {
    var r := SelectClause(clauses, i, Machine(past, c + rest));
    r.selection == sel && r.machine.future == rest
  }

  ghost predicate SelectsBy(clauses: seq<Clause>, i: nat, sel: Selection, c: seq<Choice>)
    requires i <= |clauses|
  {
    forall past, rest :: SelectEnds(clauses, i, sel, c, past, rest)
  }

  function SelectionOf(clauses: seq<Clause>, k: nat): Selection {
    if k < |clauses| then Chosen(k) else NoMatch
  }

  /** Any clause with a test may be selected, and none may. */
  lemma {:induction false} AnySelected(clauses: seq<Clause>, i: nat, k: nat) returns (c: seq<Choice>)
    requires i <= k <= |clauses| && (k < |clauses| ==> clauses[k].test.Some?)
    ensures SelectsBy(clauses, i, SelectionOf(clauses, k), c)
    decreases |clauses| - i
  {
    hide Eval, SelectsBy;
    if i == |clauses| {
      c := [];
      NothingLeft(clauses);
    } else if clauses[i].test.None? {
      c := AnySelected(clauses, i + 1, k);
      SelectionSkips(clauses, i, SelectionOf(clauses, k), c);
    } else {
      var test := clauses[i].test.value;
      var b := AnyValue(test);
      var t: seq<Choice> :| EvalsBy(test, b, t);
      if i == k {
        c := t + [Yes];
        SelectionMatches(clauses, k, b, t);
      } else {
        var next := AnySelected(clauses, i + 1, k);
        c := t + ([No] + next);
        SelectionGoesOn(clauses, i, b, t, SelectionOf(clauses, k), next);
      }
    }
  }

  lemma NothingLeft(clauses: seq<Clause>)
    ensures SelectsBy(clauses, |clauses|, NoMatch, [])
  {
    forall past, rest
      ensures SelectEnds(clauses, |clauses|, NoMatch, [], past, rest)
    {
      assert [] + rest == rest;
    }
  }

  lemma SelectionSkips(clauses: seq<Clause>, i: nat, sel: Selection, c: seq<Choice>)
    requires i < |clauses| && clauses[i].test.None? && SelectsBy(clauses, i + 1, sel, c)
    ensures SelectsBy(clauses, i, sel, c)
  {
    forall past, rest
      ensures SelectEnds(clauses, i, sel, c, past, rest)
    {
      assert SelectEnds(clauses, i + 1, sel, c, past, rest);
    }
  }

  lemma SelectionMatches(clauses: seq<Clause>, k: nat, b: bool, t: seq<Choice>)
    requires k < |clauses| && clauses[k].test.Some? && EvalsBy(clauses[k].test.value, b, t)
    ensures SelectsBy(clauses, k, Chosen(k), t + [Yes])
  {
    hide Eval;
    forall past, rest
      ensures SelectEnds(clauses, k, Chosen(k), t + [Yes], past, rest)
    {
      assert (t + [Yes]) + rest == t + ([Yes] + rest);
      assert EvalEnds(clauses[k].test.value, b, t, past, [Yes] + rest);
      assert ([Yes] + rest)[1..] == rest;
    }
  }

  lemma SelectionGoesOn(clauses: seq<Clause>, i: nat, b: bool, t: seq<Choice>, sel: Selection, next: seq<Choice>)
    requires i < |clauses| && clauses[i].test.Some? && EvalsBy(clauses[i].test.value, b, t)
    requires SelectsBy(clauses, i + 1, sel, next)
    ensures SelectsBy(clauses, i, sel, t + ([No] + next))
  {
    hide Eval;
    forall past, rest
      ensures SelectEnds(clauses, i, sel, t + ([No] + next), past, rest)
    {
      var tail := [No] + (next + rest);
      assert (t + ([No] + next)) + rest == t + tail;
      assert EvalEnds(clauses[i].test.value, b, t, past, tail);
      var a := Eval(clauses[i].test.value, Machine(past, t + tail));
      assert tail[1..] == next + rest;
      assert SelectEnds(clauses, i + 1, sel, next, a.machine.past, rest);
      assert SelectClause(clauses, i, Machine(past, t + tail)) == SelectClause(clauses, i + 1, Machine(a.machine.past, next + rest));
    }
  }

  lemma {:induction false} OnlyDefault(clauses: seq<Clause>, k: nat)
    requires OneDefault(clauses) && k < |clauses| && clauses[k].test.None?
    ensures HasDefault(clauses) && DefaultIndex(clauses) == k
  {
    assert clauses[k] in clauses;
  }

  function ClausesRun(clauses: seq<Clause>, k: nat): Machine -> Run
    requires k <= |clauses|
  {
    m => ExecClauses(clauses, k, m)
  }

  function SwitchRun(s: Stmt): Machine -> Run
    requires s.Switch?
  {
    m => ExecSwitch(s, m)
  }

  function LeftSwitch(o: Outcome): Outcome {
    if o == Broke(None) then Completed else o
  }

  /** Whatever a clause and the clauses after it may end with, the switch may end with. */
  lemma ClauseChosen(s: Stmt, k: nat, o: Outcome)
    requires s.Switch? && OneDefault(s.clauses) && k < |s.clauses| && o in EndsOf(ClausesRun(s.clauses, k))
    ensures LeftSwitch(o) in EndsOf(SwitchRun(s))
  {
    hide SelectClause, ExecClauses, SelectsBy;
    var isDefault := s.clauses[k].test.None?;
    var n := if isDefault then |s.clauses| else k;
    if isDefault {
      OnlyDefault(s.clauses, k);
    }
    var c := AnySelected(s.clauses, 0, n);
    var c' :| RunsBy(ClausesRun(s.clauses, k), o, c');
    forall past, rest
      ensures RunEnds(SwitchRun(s), LeftSwitch(o), c + c', past, rest)
    {
      assert (c + c') + rest == c + (c' + rest);
      SelectedEnds(s.clauses, SelectionOf(s.clauses, n), c, past, c' + rest);
      var sel := SelectClause(s.clauses, 0, Machine(past, c + (c' + rest)));
      var m := Emit(sel.machine, Selected(s.id, Some(k)));
      assert RunEnds(ClausesRun(s.clauses, k), o, c', m.past, rest);
      assert m == Machine(m.past, c' + rest);
    }
    assert RunsBy(SwitchRun(s), LeftSwitch(o), c + c');
  }

  lemma SelectedEnds(clauses: seq<Clause>, sel: Selection, c: seq<Choice>, past: seq<Event>, rest: seq<Choice>)
    requires SelectsBy(clauses, 0, sel, c)
    ensures var r := SelectClause(clauses, 0, Machine(past, c + rest));
            r.selection == sel && r.machine.future == rest
  {
    assert SelectEnds(clauses, 0, sel, c, past, rest);
  }

  /** Without a default clause the switch may select nothing. */
  lemma NoneChosen(s: Stmt)
    requires s.Switch? && !HasDefault(s.clauses)
    ensures Completed in EndsOf(SwitchRun(s))
  {
    hide SelectClause, ExecClauses, SelectsBy;
    var c := AnySelected(s.clauses, 0, |s.clauses|);
    forall past, rest
      ensures RunEnds(SwitchRun(s), Completed, c, past, rest)
    {
      SelectedEnds(s.clauses, NoMatch, c, past, rest);
    }
    assert RunsBy(SwitchRun(s), Completed, c);
  }

  lemma SwitchBegins(s: Stmt, labels: set<string>, o: Outcome)
    requires s.Switch? && o in EndsOf(SwitchRun(s))
    ensures o in EndsOf(LiveRun(s, labels))
  {
    hide Eval, ExecSwitch, EndsOf, CanEval;
    var b := AnyValue(s.expr);
    EvalThen(LiveRun(s, labels), s.expr, b, SwitchRun(s), o);
  }

  /** The endings of a clause that are not its completion. */
  ghost function ClauseJumps(clauses: seq<Clause>): iset<Outcome> {
    iset o: Outcome | !o.Completed? && exists k :: 0 <= k < |clauses| && o in EndsOf(SeqRun(clauses[k].body))
  }

  lemma ClauseJump(clauses: seq<Clause>, k: nat, o: Outcome)
    requires k < |clauses| && o in EndsOf(SeqRun(clauses[k].body))
    requires !o.Completed? || k == |clauses| - 1
    ensures o in EndsOf(ClausesRun(clauses, k))
  {
    hide ExecSeq, EndsOf;
    if o.Completed? {
      RunNow(ClausesRun(clauses, k + 1), Completed);
      RunThen(ClausesRun(clauses, k), SeqRun(clauses[k].body), Completed, ClausesRun(clauses, k + 1), Completed);
    } else {
      RunInto(ClausesRun(clauses, k), SeqRun(clauses[k].body), o, o);
    }
  }

  lemma SwitchRuns(s: Stmt, labels: set<string>)
    requires s.Switch? && OneDefault(s.clauses)
    ensures var ends := EndsOf(LiveRun(s, labels));
            && (forall o :: o in ClauseJumps(s.clauses) ==> LeftSwitch(o) in ends)
            && (LastCompletes(s.clauses) || !HasDefault(s.clauses) ==> Completed in ends)
  {
    hide EndsOf, ClausesRun, SwitchRun, LiveRun, SeqRun;
    forall o | o in ClauseJumps(s.clauses)
      ensures LeftSwitch(o) in EndsOf(LiveRun(s, labels))
    {
      var k :| 0 <= k < |s.clauses| && o in EndsOf(SeqRun(s.clauses[k].body));
      ClauseJump(s.clauses, k, o);
      ClauseChosen(s, k, o);
      SwitchBegins(s, labels, LeftSwitch(o));
    }
    if LastCompletes(s.clauses) {
      ClauseJump(s.clauses, |s.clauses| - 1, Completed);
      ClauseChosen(s, |s.clauses| - 1, Completed);
      SwitchBegins(s, labels, Completed);
    }
    if !HasDefault(s.clauses) {
      NoneChosen(s);
      SwitchBegins(s, labels, Completed);
    }
  }

  ghost predicate LastCompletes(clauses: seq<Clause>) {
    clauses != [] && Completed in EndsOf(SeqRun(clauses[|clauses| - 1].body))
  }

  lemma EnterGroupStep(id: nat, base: nat, ctx: Context, s: Stmt, start: nat, end: nat, pre: FlowId, fall: FlowId,
                       st: State,
                       ends: iset<Outcome>)
    requires Valid(st) && s.Switch? && pre < |st.graph| && fall < |st.graph| && base <= |st.graph|
    ensures Explained(id, base, ctx, st, EnterGroup(s, start, end, pre, fall, st), ends)
  {
    hide Grows, Valid, Explained, AddAntecedent, FinishFlowLabel;
    EnterGroupGrows(s, start, end, pre, fall, st);
    ExplainedStep(id, base, ctx, st, EnterGroup(s, start, end, pre, fall, st), {}, ends);
  }

  /** A test may raise, and nothing else; the statements of the clause end in one of their ways. */
  lemma {:induction false} ClauseExact(id: nat, c: Clause, pre: FlowId, ctx: Context, st: State, base: nat,
                                       ends: iset<Outcome>)
    requires PlainSeq(id, c.body, ShapeOf(ctx)) && Valid(st) && InScope(ctx, {}, |st.graph|) && base <= |st.graph|
    requires pre < |st.graph|
    requires forall o :: o in EndsOf(SeqRun(c.body)) && !o.Completed? ==> o in ends
    ensures Explained(id, base, ctx, st, BindClause(c, pre, ctx, st), ends)
    ensures !Dead(BindClause(c, pre, ctx, st)) ==> Completed in EndsOf(SeqRun(c.body))
    decreases c, 0
  {
    hide Valid, Dead, Explained, EndsOf, InScope, PlainSeq, ShapeOf, BindEach, BindDeads, BindExpr, Grows, Targets;
    var exc := ctx.exceptionTarget;
    if Dead(st) {
      DeadsQuiet(id, c.body, ShapeOf(ctx), st);
      QuietExplained(id, base, ctx, st, BindDeads(c.body, st), ends);
    } else {
      var s1 := st;
      ExplainedNothing(id, base, ctx, st, st, ends);
      if c.test.Some? {
        var t0 := st.(flow := pre);
        var t1 := BindExpr(c.test.value, AsValue, exc, t0);
        MoveGrows(st, t0);
        ExprStep(id, base, ctx, c.test.value, t0, ends);
        ExprGrows(c.test.value, AsValue, exc, t0);
        GrowsExtends(ModeTargets(AsValue) + Optional(exc), t0, t1);
        s1 := t1.(flow := st.flow);
        FlowInRange(st);
        MoveGrows(t1, s1);
        ExplainedNothing(id, base, ctx, st, t0, ends);
        ExplainedNothing(id, base, ctx, t1, s1, ends);
        ExplainedTrans(id, base, ctx, st, t0, t1, ends);
        ExplainedTrans(id, base, ctx, st, t1, s1, ends);
        SameScope(ctx, |st.graph|, |s1.graph|);
      }
      SeqExact(id, c.body, ctx, s1, base, ends);
      ExplainedTrans(id, base, ctx, st, s1, BindEach(c.body, ctx, s1), ends);
    }
  }

  /** The clauses from `|s.clauses| - |rest|` on. */
  lemma {:induction false} ClausesExact(id: nat, s: Stmt, rest: seq<Clause>, start: nat, pre: FlowId, fall: FlowId,
                                        ctx: Context,
                                        st: State, base: nat)
    requires s.Switch? && |rest| <= |s.clauses| && rest == s.clauses[|s.clauses| - |rest|..]
    requires PlainClauses(id, rest, ShapeOf(ctx))
    requires Valid(st) && InScope(ctx, {}, |st.graph|) && base <= |st.graph| && pre < |st.graph| && fall < |st.graph|
    ensures Explained(id, base, ctx, st, BindClauses(s, rest, start, pre, fall, ctx, st), ClauseJumps(s.clauses))
    ensures rest != [] && !Dead(BindClauses(s, rest, start, pre, fall, ctx, st)) ==> LastCompletes(s.clauses)
    decreases rest, 1
  {
    hide Valid, Dead, Explained, EndsOf, InScope, PlainSeq, ShapeOf, BindClause, EnterGroup, Grows, Targets, SeqRun;
    var jumps, out := ClauseJumps(s.clauses), BindClauses(s, rest, start, pre, fall, ctx, st);
    if rest == [] {
      ExplainedNothing(id, base, ctx, st, st, jumps);
    } else {
      var empty := rest[0].body == [] && |rest| > 1;
      var end := |s.clauses| - |rest| + 1;
      var s1 := if !empty then EnterGroup(s, start, end, pre, fall, st)
                else if fall == UNREACHABLE_FLOW then st.(flow := pre) else st;
      if empty {
        FlowInRange(st);
        MoveGrows(st, s1);
        ExplainedNothing(id, base, ctx, st, s1, jumps);
      } else {
        EnterGroupGrows(s, start, end, pre, fall, st);
        GrowsExtends({}, st, s1);
        EnterGroupStep(id, base, ctx, s, start, end, pre, fall, st, jumps);
      }
      SameScope(ctx, |st.graph|, |s1.graph|);
      assert rest[0] == s.clauses[end - 1];
      var s2 := BindClause(rest[0], pre, ctx, s1);
      ClauseExact(id, rest[0], pre, ctx, s1, base, jumps);
      ClauseGrows(rest[0], pre, ctx, s1);
      GrowsExtends(Targets(ctx), s1, s2);
      SameScope(ctx, |s1.graph|, |s2.graph|);
      FlowInRange(s2);
      ClausesExact(id, s, rest[1..], if empty then start else end, pre, if empty then fall else s2.flow, ctx, s2, base);
      ExplainedTrans(id, base, ctx, st, s1, s2, jumps);
      ExplainedTrans(id, base, ctx, st, s2, out, jumps);
    }
  }

  lemma SwitchReason(ctx: Context, post: FlowId, t: FlowId, jumps: iset<Outcome>, ends: iset<Outcome>)
    requires TargetsBelow(ctx, post) && t <= post && Reason(SwitchContext(ctx, post), t, jumps)
    requires forall o :: o in jumps ==> LeftSwitch(o) in ends
    ensures t < post ==> Reason(ctx, t, ends)
    ensures t == post ==> Completed in ends
  {
    hide Targets;
    var inner := SwitchContext(ctx, post);
    ScopeTargets(ctx, post);
    if d :| Broke(d) in jumps && BreakTarget(inner, d) == Some(t) {
      JumpsBelow(ctx, post, d);
      if d.Some? {
        assert BreakTarget(ctx, d) == Some(t);
        assert LeftSwitch(Broke(d)) == Broke(d);
      } else {
        assert LeftSwitch(Broke(d)) == Completed;
      }
    } else if d :| Continued(d) in jumps && ContinueTarget(inner, d) == Some(t) {
      JumpsBelow(ctx, post, d);
      assert ContinueTarget(ctx, d) == Some(t);
      assert LeftSwitch(Continued(d)) == Continued(d);
    } else if Returned in jumps && inner.returnTarget == Some(t) {
      assert LeftSwitch(Returned) == Returned;
    }
  }

  lemma SwitchInScope(ctx: Context, labels: set<string>, post: FlowId)
    requires InScope(ctx, labels, post)
    ensures InScope(SwitchContext(ctx, post), {}, post + 1)
    ensures ShapeOf(SwitchContext(ctx, post)) == SwitchShape(ShapeOf(ctx))
  {
    BreakContextTargets(ctx, post);
  }

  /** The clauses seen from outside the switch. */
  lemma {:induction false} SwitchClausesExact(id: nat, s: Stmt, labels: set<string>, ctx: Context, base: nat, st: State)
    requires s.Switch? && Plain(id, s, ShapeOf(ctx)) && Valid(st) && InScope(ctx, labels, base) && base < |st.graph|
    ensures var out, ends := BindClauses(s, s.clauses, 0, st.flow, UNREACHABLE_FLOW, SwitchContext(ctx, base), st), EndsOf(LiveRun(s, labels));
            && Explained(id, base, ctx, st, out, ends)
            && (Gained(st.graph, out.graph, base) ==> Completed in ends)
            && (s.clauses != [] && !Dead(out) ==> LastCompletes(s.clauses))
    decreases s, 0
  {
    hide Valid, Dead, EndsOf, ShapeOf, BindClauses, Reason, Gained, ClauseJumps, LiveRun, SwitchContext, InScope;
    var inner, ends, jumps := SwitchContext(ctx, base), EndsOf(LiveRun(s, labels)), ClauseJumps(s.clauses);
    SwitchRuns(s, labels);
    SwitchInScope(ctx, labels, base);
    SameScope(inner, base + 1, |st.graph|);
    FlowInRange(st);
    TwoNodes(st);
    assert s.clauses == s.clauses[|s.clauses| - |s.clauses|..];
    ClausesExact(id, s, s.clauses, 0, st.flow, UNREACHABLE_FLOW, inner, st, base + 1);
    var out := BindClauses(s, s.clauses, 0, st.flow, UNREACHABLE_FLOW, inner, st);
    ScopeBelow(ctx, labels, base);
    forall t: FlowId | t <= base && Reason(inner, t, jumps)
      ensures t < base ==> Reason(ctx, t, ends)
      ensures t == base ==> Completed in ends
    {
      SwitchReason(ctx, base, t, jumps, ends);
    }
    assert forall id :: Reached(id) in jumps ==> LeftSwitch(Reached(id)) == Reached(id);
    ExplainedOtherwise(id, base, ctx, base + 1, inner, st, out, ends, jumps);
  }

  lemma ScopeBelow(ctx: Context, labels: set<string>, size: nat)
    requires InScope(ctx, labels, size)
    ensures TargetsBelow(ctx, size)
  {
  }

  lemma {:induction false} SwitchExact(id: nat, s: Stmt, labels: set<string>, ctx: Context, st: State)
    requires s.Switch? && Plain(id, s, ShapeOf(ctx)) && Valid(st) && !Dead(st) && InScope(ctx, labels, |st.graph|)
    ensures Exact(id, |st.graph|, ctx, st, BindLive(s, ctx, st), EndsOf(LiveRun(s, labels)))
    decreases s, 2
  {
    hide Valid, Dead, BindExpr, BindClauses, BindDeadClauses, Explained, EndsOf, Extends, AddAntecedent,
         FinishFlowLabel, Gained, Targets, Grows, InScope, ShapeOf;
    var s0, s1 := SwitchStages(s, ctx, st);
    var base, ends := |st.graph|, EndsOf(LiveRun(s, labels));
    LabelsStep(id, base, ctx, st, s0, [BranchLabel([])], ends);
    ExprStep(id, base, ctx, s.expr, s0, ends);
    ExtendsLength(s0.graph, s1.graph);
    ExplainedTrans(id, base, ctx, st, s0, s1, ends);
    var s2 := SwitchClauses(id, s, labels, ctx, st, s0, s1);
    SwitchRuns(s, labels);
    ExplainedTrans(id, base, ctx, st, s1, s2, ends);
    var s3 := Join(s2, base);
    FlowInRange(s2);
    JoinStep(id, base, ctx, s2, base, s2.flow, ends);
    JoinFromGrows(s2, base, s2.flow);
    ExplainedTrans(id, base, ctx, st, s2, s3, ends);
    var s4 := s3;
    if !HasDefault(s.clauses) {
      var node := SwitchClause(s.id, 0, 0, s1.flow);
      var t := NewNode(s3, node);
      FlowInRange(s3);
      AppendGrows(s3, t, [node]);
      LabelsStep(id, base, ctx, s3, t, [node], ends);
      JoinStep(id, base, ctx, t, base, |s3.graph|, ends);
      JoinFromGrows(t, base, |s3.graph|);
      s4 := JoinFrom(t, base, |s3.graph|);
      ExplainedTrans(id, base, ctx, s3, t, s4, ends);
      ExplainedTrans(id, base, ctx, st, s3, s4, ends);
    }
    ExplainedNothing(id, base, ctx, s4, Resume(s4, base), ends);
    ExplainedTrans(id, base, ctx, st, s4, Resume(s4, base), ends);
    if HasDefault(s.clauses) && !Dead(Resume(s4, base)) {
      ResumedGained(s0.graph, s4, base);
      GainedTrans(s0.graph, s1.graph, s4.graph, base);
      ScopeBelow(ctx, labels, base);
      ScopeTargets(ctx, base);
      ExprGrows(s.expr, AsValue, ctx.exceptionTarget, s0);
      NotGained(ModeTargets(AsValue) + Optional(ctx.exceptionTarget), s0, s1, base);
      GainedTrans(s1.graph, s2.graph, s4.graph, base);
      if !Gained(s1.graph, s2.graph, base) {
        JoinAlive(s2, base, base);
      }
    }
  }

  /** The state after the clauses. */
  lemma {:induction false} SwitchClauses(id: nat, s: Stmt, labels: set<string>, ctx: Context, st: State, s0: State,
                                         s1: State)
    returns (s2: State)
    requires SwitchStaged(s, ctx, st, s0, s1) && Plain(id, s, ShapeOf(ctx)) && InScope(ctx, labels, |st.graph|)
    ensures s2 == if Dead(s1) then BindDeadClauses(s.clauses, s1)
                  else BindClauses(s, s.clauses, 0, s1.flow, UNREACHABLE_FLOW, SwitchContext(ctx, |st.graph|), s1)
    ensures Valid(s2) && |st.graph| < |s2.graph| && Explained(id, |st.graph|, ctx, s1, s2, EndsOf(LiveRun(s, labels)))
    ensures Gained(s1.graph, s2.graph, |st.graph|) ==> Completed in EndsOf(LiveRun(s, labels))
    ensures HasDefault(s.clauses) && !Dead(s2) ==> LastCompletes(s.clauses)
    decreases s, 1
  {
    hide Valid, Dead, BindExpr, BindClauses, BindDeadClauses, Explained, EndsOf, Extends, Gained, Targets, Grows,
         InScope, ShapeOf, SwitchContext;
    var base, ends := |st.graph|, EndsOf(LiveRun(s, labels));
    ExtendsLength(s0.graph, s1.graph);
    if Dead(s1) {
      s2 := BindDeadClauses(s.clauses, s1);
      DeadClausesQuiet(id, s.clauses, SwitchShape(ShapeOf(ctx)), s1);
      QuietExplained(id, base, ctx, s1, s2, ends);
    } else {
      var inner := SwitchContext(ctx, base);
      s2 := BindClauses(s, s.clauses, 0, s1.flow, UNREACHABLE_FLOW, inner, s1);
      FlowInRange(s1);
      TwoNodes(s1);
      ClausesGrow(s, s.clauses, 0, s1.flow, UNREACHABLE_FLOW, inner, s1);
      GrowsExtends(Targets(inner), s1, s2);
      SwitchClausesExact(id, s, labels, ctx, base, s1);
    }
  }

  lemma TwoNodes(st: State)
    requires Valid(st)
    ensures UNREACHABLE_FLOW < |st.graph|
  {
  }

  // ----- try -----

  function GuardedRun(s: Stmt): Machine -> Run
    requires s.Try?
  {
    m => ExecGuarded(s, m)
  }

  function TryRun(s: Stmt): Machine -> Run
    requires s.Try?
  {
    m => ExecTry(s, m)
  }

  /** Statements one after the other may raise as soon as there are any; none of them complete. */
  lemma SeqSomehow(ss: seq<Stmt>)
    ensures ss == [] ==> Completed in EndsOf(SeqRun(ss))
    ensures ss != [] ==> Raised in EndsOf(SeqRun(ss))
  {
    hide Exec, EndsOf;
    if ss == [] {
      RunNow(SeqRun(ss), Completed);
    } else {
      StmtEnds(ss[0], {}, Completed);
      SeqRuns(ss);
    }
  }

  lemma GuardedRuns(s: Stmt)
    requires s.Try? && (s.handler.SomeBlock? ==> s.block != [])
    ensures forall o :: o in EndsOf(SeqRun(s.block)) && (!o.Raised? || s.handler.NoBlock?) ==> o in EndsOf(GuardedRun(s))
    ensures s.handler.SomeBlock? ==> EndsOf(SeqRun(s.handler.statements)) <= EndsOf(GuardedRun(s))
    ensures Completed in EndsOf(GuardedRun(s)) || Raised in EndsOf(GuardedRun(s))
  {
    hide ExecSeq, EndsOf;
    forall o | o in EndsOf(SeqRun(s.block)) && (!o.Raised? || s.handler.NoBlock?)
      ensures o in EndsOf(GuardedRun(s))
    {
      RunInto(GuardedRun(s), SeqRun(s.block), o, o);
    }
    SeqSomehow(s.block);
    if s.handler.SomeBlock? {
      forall o | o in EndsOf(SeqRun(s.handler.statements))
        ensures o in EndsOf(GuardedRun(s))
      {
        RunThen(GuardedRun(s), SeqRun(s.block), Raised, SeqRun(s.handler.statements), o);
      }
      SeqSomehow(s.handler.statements);
    }
  }

  /** The part of the statement after the guarded parts, when they ended with `pending`. */
  function FinallyRun(s: Stmt, pending: Outcome): Machine -> Run
    requires s.Try? && s.finalizer.SomeBlock?
  {
    m => var f := ExecSeq(s.finalizer.statements, m); if f.outcome.Completed? then Run(pending, f.machine) else f
  }

  lemma FinallyRuns(s: Stmt, pending: Outcome, o: Outcome)
    requires s.Try? && s.finalizer.SomeBlock? && pending in EndsOf(GuardedRun(s)) && !pending.Reached?
    requires !pending.Stopped?
    requires o in EndsOf(SeqRun(s.finalizer.statements))
    ensures (if o.Completed? then pending else o) in EndsOf(TryRun(s))
  {
    hide ExecSeq, ExecGuarded, EndsOf;
    var o' := if o.Completed? then pending else o;
    RunInto(FinallyRun(s, pending), SeqRun(s.finalizer.statements), o, o');
    RunThen(TryRun(s), GuardedRun(s), pending, FinallyRun(s, pending), o');
  }

  lemma TryRuns(s: Stmt)
    requires s.Try? && (s.handler.SomeBlock? ==> s.block != [])
    ensures forall o :: o in EndsOf(GuardedRun(s)) && (o.Reached? || s.finalizer.NoBlock?) ==> o in EndsOf(TryRun(s))
    ensures s.finalizer.SomeBlock? ==> forall o :: o in EndsOf(SeqRun(s.finalizer.statements)) && !o.Completed? ==> o in EndsOf(TryRun(s))
    ensures s.finalizer.SomeBlock? && Completed in EndsOf(SeqRun(s.finalizer.statements)) ==>
              forall o :: o in EndsOf(GuardedRun(s)) && !o.Stopped? ==> o in EndsOf(TryRun(s))
  {
    hide ExecSeq, ExecGuarded, EndsOf;
    forall o | o in EndsOf(GuardedRun(s)) && (o.Reached? || s.finalizer.NoBlock?)
      ensures o in EndsOf(TryRun(s))
    {
      RunInto(TryRun(s), GuardedRun(s), o, o);
    }
    GuardedRuns(s);
    if s.finalizer.SomeBlock? {
      var pending := if Completed in EndsOf(GuardedRun(s)) then Completed else Raised;
      forall o | o in EndsOf(SeqRun(s.finalizer.statements)) && !o.Completed?
        ensures o in EndsOf(TryRun(s))
      {
        FinallyRuns(s, pending, o);
      }
      if Completed in EndsOf(SeqRun(s.finalizer.statements)) {
        forall o | o in EndsOf(GuardedRun(s)) && !o.Stopped? && !o.Reached?
          ensures o in EndsOf(TryRun(s))
        {
          FinallyRuns(s, o, Completed);
        }
      }
    }
  }

  /** No guarded part is left by a break or continue. */
  lemma NoEscape(s: Stmt, o: Outcome)
    requires s.Try? && Escapes(s, {}) == {} && o in EndsOf(GuardedRun(s))
    ensures !o.Broke? && !o.Continued?
  {
    hide ExecGuarded;
    var c :| RunsBy(GuardedRun(s), o, c);
    assert RunEnds(GuardedRun(s), o, c, [], []);
    GuardedWithin(s, Machine([], c + []));
  }

  /** What leads to a label below the ones of the try statement, and to its return label. */
  lemma TryReason(s: Stmt, ctx: Context, base: nat, x: FlowId, x': FlowId, t: FlowId, own: iset<Outcome>,
                  ends: iset<Outcome>)
    requires s.Try? && TargetsBelow(ctx, base) && base + 1 < x && t <= base + 1
    requires Reason(TryContext(s, ctx, base + 1, x), t, own) && forall o :: o in own && !o.Raised? ==> o in ends
    ensures Reason(TryContext(s, ctx, base + 1, x'), t, ends) && t != base
    ensures t == base + 1 ==> Returned in ends && s.finalizer.SomeBlock?
  {
    hide Targets;
    var inner, outer := TryContext(s, ctx, base + 1, x), TryContext(s, ctx, base + 1, x');
    ScopeTargets(ctx, base);
    if d :| Broke(d) in own && BreakTarget(inner, d) == Some(t) {
      JumpsBelow(ctx, base, d);
      assert BreakTarget(outer, d) == Some(t) && BreakTarget(ctx, d) == Some(t);
    } else if d :| Continued(d) in own && ContinueTarget(inner, d) == Some(t) {
      JumpsBelow(ctx, base, d);
      assert ContinueTarget(outer, d) == Some(t) && ContinueTarget(ctx, d) == Some(t);
    }
  }

  lemma TryInScope(s: Stmt, ctx: Context, base: nat, x: FlowId, size: nat)
    requires s.Try? && ctx.wrapping == 0 && InScope(ctx, {}, base) && base + 1 < size && x < size
    ensures InScope(TryContext(s, ctx, base + 1, x), {}, size)
    ensures ShapeOf(TryContext(s, ctx, base + 1, x)) == ShapeOf(ctx)
  {
    TryContextTargets(s, ctx, base + 1, x);
  }

  /** The context in which the guarded parts are explained. */
  function GuardedContext(s: Stmt, ctx: Context, base: nat): Context
    requires s.Try?
  {
    TryContext(s, ctx, base + 1, base + 2)
  }

  /** How a guarded part explains what its labels gain. */
  ghost predicate PartExplained(id: nat, s: Stmt, ctx: Context, base: nat, a: State, b: State, ends: iset<Outcome>)
    requires s.Try?
  {
    && Explained(id, base, GuardedContext(s, ctx, base), a, b, ends)
    && (Gained(a.graph, b.graph, base) ==> Completed in ends)
    && (Gained(a.graph, b.graph, base + 1) ==> Returned in ends && s.finalizer.SomeBlock?)
  }

  lemma PartTrans(id: nat, s: Stmt, ctx: Context, base: nat, a: State, b: State, c: State, ends: iset<Outcome>)
    requires s.Try? && PartExplained(id, s, ctx, base, a, b, ends) && PartExplained(id, s, ctx, base, b, c, ends)
    ensures PartExplained(id, s, ctx, base, a, c, ends)
  {
    hide Gained, Explained;
    ExplainedTrans(id, base, GuardedContext(s, ctx, base), a, b, c, ends);
    if Gained(a.graph, c.graph, base) {
      GainedTrans(a.graph, b.graph, c.graph, base);
    }
    if Gained(a.graph, c.graph, base + 1) {
      GainedTrans(a.graph, b.graph, c.graph, base + 1);
    }
  }

  /** A part starts with a flow to its exception label. */
  lemma PartBegins(id: nat, s: Stmt, ctx: Context, base: nat, st: State, x: FlowId, ends: iset<Outcome>)
    requires s.Try? && Valid(st) && base + 1 < x && base <= |st.graph|
    ensures PartExplained(id, s, ctx, base, st, Join(st, x), ends)
  {
    hide Explained, Gained, AddAntecedent;
    FlowInRange(st);
    JoinStep(id, base, GuardedContext(s, ctx, base), st, x, st.flow, ends);
    if Gained(st.graph, Join(st, x).graph, base) {
      JoinAlive(st, x, base);
    }
    if Gained(st.graph, Join(st, x).graph, base + 1) {
      JoinAlive(st, x, base + 1);
    }
  }

  /** A part ends with a flow to the label of the normal exit. */
  lemma PartEnds(id: nat, s: Stmt, ctx: Context, base: nat, st: State, ends: iset<Outcome>)
    requires s.Try? && Valid(st) && base <= |st.graph| && (!Dead(st) ==> Completed in ends)
    ensures PartExplained(id, s, ctx, base, st, Join(st, base), ends)
  {
    hide Explained, Gained, AddAntecedent, Dead;
    FlowInRange(st);
    JoinStep(id, base, GuardedContext(s, ctx, base), st, base, st.flow, ends);
    if Gained(st.graph, Join(st, base).graph, base) {
      JoinAlive(st, base, base);
    }
    if Gained(st.graph, Join(st, base).graph, base + 1) {
      JoinAlive(st, base, base + 1);
    }
  }

  lemma {:induction false} PartExact(id: nat, s: Stmt, ss: seq<Stmt>, ctx: Context, base: nat, x: FlowId, st: State,
                                     ends: iset<Outcome>)
    requires s.Try? && PlainSeq(id, ss, ShapeOf(ctx)) && Valid(st) && ctx.wrapping == 0 && InScope(ctx, {}, base)
    requires base + 1 < x < |st.graph| && forall o :: o in EndsOf(SeqRun(ss)) && !o.Raised? ==> o in ends
    ensures PartExplained(id, s, ctx, base, st, Join(BindBlock(ss, TryContext(s, ctx, base + 1, x), st), base), ends)
    decreases ss, 2
  {
    hide Explained, Gained, AddAntecedent, BindBlock, Reason, Valid, Dead, EndsOf, InScope, ShapeOf, PlainSeq,
         TryContext, Grows, Targets, SeqRun;
    var inner, own := TryContext(s, ctx, base + 1, x), EndsOf(SeqRun(ss));
    var out := BindBlock(ss, inner, st);
    TryInScope(s, ctx, base, x, |st.graph|);
    BlockExact(id, ss, inner, st, |st.graph|, own);
    BlockGrows(ss, inner, st);
    GrowsExtends(Targets(inner), st, out);
    ScopeBelow(ctx, {}, base);
    forall t: FlowId | t <= base + 1 && Reason(inner, t, own)
      ensures Reason(GuardedContext(s, ctx, base), t, ends) && t != base
      ensures t == base + 1 ==> Returned in ends && s.finalizer.SomeBlock?
    {
      TryReason(s, ctx, base, x, base + 2, t, own, ends);
    }
    ExplainedOtherwise(id, base, GuardedContext(s, ctx, base), |st.graph|, inner, st, out, ends, own);
    if Gained(st.graph, out.graph, base) {
      GainedReason(id, |st.graph|, inner, st, out, own, base);
    }
    if Gained(st.graph, out.graph, base + 1) {
      GainedReason(id, |st.graph|, inner, st, out, own, base + 1);
    }
    PartEnds(id, s, ctx, base, out, ends);
    PartTrans(id, s, ctx, base, st, out, Join(out, base), ends);
  }

  lemma PartQuiet(id: nat, s: Stmt, ctx: Context, base: nat, a: State, b: State, nodes: seq<FlowNode>,
                  ends: iset<Outcome>)
    requires s.Try? && Valid(a) && base + 1 < |a.graph| && b.graph == a.graph + nodes && b.marks == a.marks
    ensures PartExplained(id, s, ctx, base, a, b, ends)
  {
  }

  /** Both guarded parts, from where their labels are new. */
  lemma {:induction false} GuardedExact(id: nat, s: Stmt, ctx: Context, st: State)
    requires s.Try? && PlainSeq(id, s.block, ShapeOf(ctx))
    requires (s.handler.SomeBlock? ==> PlainSeq(id, s.handler.statements, ShapeOf(ctx)) && s.block != [])
    requires Valid(st) && ctx.wrapping == 0 && InScope(ctx, {}, |st.graph|)
    ensures PartExplained(id, s, ctx, |st.graph|, NewLabels(st, BRANCHES), BindGuarded(s, ctx, st).state, EndsOf(GuardedRun(s)))
    decreases s, 1
  {
    hide PartExplained, AddAntecedent, BindBlock, Valid, EndsOf, InScope, ShapeOf, PlainSeq, TryContext, GuardedRun,
         SeqRun, Extends, FinishFlowLabel;
    var base, ends := |st.graph|, EndsOf(GuardedRun(s));
    var g0, e0, t, s1 := TryBlockStages(s, ctx, st);
    GuardedRuns(s);
    ExtendsLength(g0.graph, e0.graph);
    PartBegins(id, s, ctx, base, g0, base + 2, ends);
    PartExact(id, s, s.block, ctx, base, base + 2, e0, ends);
    PartTrans(id, s, ctx, base, g0, e0, s1, ends);
    if s.handler.SomeBlock? {
      var c0, c1, e, t', s2 := HandlerStages(s, ctx, st, s1);
      ExtendsLength(g0.graph, s1.graph);
      ExtendsLength(c1.graph, e.graph);
      PartQuiet(id, s, ctx, base, s1, c1, [BranchLabel([])], ends);
      PartBegins(id, s, ctx, base, c1, |s1.graph|, ends);
      PartExact(id, s, s.handler.statements, ctx, base, |s1.graph|, e, ends);
      PartTrans(id, s, ctx, base, g0, s1, c1, ends);
      PartTrans(id, s, ctx, base, g0, c1, e, ends);
      PartTrans(id, s, ctx, base, g0, e, s2, ends);
    }
  }

  /** The guarded parts seen from outside the statement. */
  lemma GuardedOutside(id: nat, s: Stmt, ctx: Context, base: nat, a: State, b: State, guarded: iset<Outcome>,
                       ends: iset<Outcome>)
    requires s.Try? && TargetsBelow(ctx, base) && Explained(id, base, GuardedContext(s, ctx, base), a, b, guarded)
    requires forall o :: o in guarded && (o.Reached? || s.finalizer.NoBlock?) ==> o in ends
    requires s.finalizer.SomeBlock? ==> forall o :: o in guarded ==> !o.Broke? && !o.Continued?
    ensures Explained(id, base, ctx, a, b, ends)
  {
    hide Explained, Targets;
    var inner := GuardedContext(s, ctx, base);
    forall t: FlowId | t < base && Reason(inner, t, guarded)
      ensures Reason(ctx, t, ends)
    {
      if d :| Broke(d) in guarded && BreakTarget(inner, d) == Some(t) {
        assert BreakTarget(ctx, d) == Some(t);
      } else if d :| Continued(d) in guarded && ContinueTarget(inner, d) == Some(t) {
        assert ContinueTarget(ctx, d) == Some(t);
      }
    }
    ExplainedOtherwise(id, base, ctx, base, inner, a, b, ends, guarded);
  }

  lemma GainedNew(g: Graph, h: Graph, join: FlowId)
    requires Antecedents(g, join) == []
    ensures Antecedents(h, join) != [] ==> Gained(g, h, join)
  {
    if Antecedents(h, join) != [] {
      assert Antecedents(h, join)[0] in Antecedents(h, join);
    }
  }

  /** A reduced flow is added to a target only if there is something to reduce to. */
  lemma ReducedStep(id: nat, base: nat, ctx: Context, st: State, target: Option<FlowId>, finallyLabel: FlowId,
                    list: seq<FlowId>,
                    ends: iset<Outcome>)
    requires Valid(st) && base <= |st.graph|
    requires target.Some? && list != [] ==> Reason(ctx, target.value, ends)
    ensures Explained(id, base, ctx, st, AddReduced(st, target, finallyLabel, list), ends)
  {
    hide Explained, Reason, AddAntecedent, Valid;
    if target.Some? && list != [] {
      var node := ReduceLabel(finallyLabel, list, st.flow);
      var t := NewNode(st, node);
      LabelsStep(id, base, ctx, st, t, [node], ends);
      assert JoinFrom(t, target.value, |st.graph|) == Join(t.(flow := |st.graph|), target.value).(flow := t.flow);
      JoinReason(id, base, ctx, t.(flow := |st.graph|), target.value, ends);
      ExplainedNothing(id, base, ctx, t, t.(flow := |st.graph|), ends);
      ExplainedTrans(id, base, ctx, st, t, t.(flow := |st.graph|), ends);
      ExplainedTrans(id, base, ctx, st, t.(flow := |st.graph|), Join(t.(flow := |st.graph|), target.value), ends);
      ExplainedNothing(id, base, ctx, Join(t.(flow := |st.graph|), target.value), JoinFrom(t, target.value, |st.graph|), ends);
      ExplainedTrans(id, base, ctx, st, Join(t.(flow := |st.graph|), target.value), JoinFrom(t, target.value, |st.graph|), ends);
    } else {
      ExplainedNothing(id, base, ctx, st, st, ends);
    }
  }

  /** On the way out of the finally block. */
  lemma LeaveExact(id: nat, base: nat, ctx: Context, st: State, finallyLabel: FlowId, normalList: seq<FlowId>,
                   exceptionList: seq<FlowId>,
                   returnList: seq<FlowId>, ends: iset<Outcome>)
    requires Valid(st) && base <= |st.graph|
    requires !Dead(st) && returnList != [] ==> Returned in ends
    requires !Dead(st) && normalList != [] ==> Completed in ends
    ensures Exact(id, base, ctx, st, LeaveFinally(ctx, st, finallyLabel, normalList, exceptionList, returnList), ends)
  {
    hide Explained, Valid, AddReduced, Extends;
    var out := LeaveFinally(ctx, st, finallyLabel, normalList, exceptionList, returnList);
    if Dead(st) {
      ExplainedNothing(id, base, ctx, st, out, ends);
      StillDead(st);
    } else {
      var s1, s2 := LeaveStages(ctx, st, finallyLabel, normalList, exceptionList, returnList);
      ExtendsLength(st.graph, s1.graph);
      ReducedStep(id, base, ctx, st, ctx.returnTarget, finallyLabel, returnList, ends);
      ReducedStep(id, base, ctx, s1, ctx.exceptionTarget, finallyLabel, exceptionList, ends);
      ExplainedTrans(id, base, ctx, st, s1, s2, ends);
      AddReducedGrows(s1, ctx.exceptionTarget, finallyLabel, exceptionList);
      GrowsExtends(Optional(ctx.exceptionTarget), s1, s2);
      if normalList != [] {
        LabelsStep(id, base, ctx, s2, out, [ReduceLabel(finallyLabel, normalList, st.flow)], ends);
      } else {
        ExplainedNothing(id, base, ctx, s2, out, ends);
        StillDead(s2);
      }
      ExplainedTrans(id, base, ctx, st, s2, out, ends);
    }
  }

  lemma StillDead(st: State)
    requires Valid(st)
    ensures Dead(st.(flow := UNREACHABLE_FLOW))
  {
  }

  lemma {:induction false} FinallyExact(id: nat, s: Stmt, ctx: Context, st: State)
    requires s.Try? && s.finalizer.SomeBlock? && Escapes(s, {}) == {}
    requires PlainSeq(id, s.finalizer.statements, ShapeOf(ctx))
    requires PlainSeq(id, s.block, ShapeOf(ctx))
    requires (s.handler.SomeBlock? ==> PlainSeq(id, s.handler.statements, ShapeOf(ctx)) && s.block != [])
    requires Valid(st) && ctx.wrapping == 0 && InScope(ctx, {}, |st.graph|)
    ensures Exact(id, |st.graph|, ctx, st, BindTry(s, ctx, st), EndsOf(TryRun(s)))
    decreases s, 2
  {
    hide Explained, Gained, Valid, Dead, BindBlock, BindGuarded, LeaveFinally, Extends, EndsOf, InScope, PlainSeq,
         ShapeOf, TryRun, GuardedRun, SeqRun, Escapes;
    var base, ends, guarded := |st.graph|, EndsOf(TryRun(s)), EndsOf(GuardedRun(s));
    var g0 := NewLabels(st, BRANCHES);
    var g, s2, s3 := TryStages(s, ctx, st);
    ExtendsLength(st.graph, g.state.graph);
    ExtendsLength(st.graph, s2.graph);
    ExtendsLength(st.graph, s3.graph);
    TryRuns(s);
    GuardedExact(id, s, ctx, st);
    forall o | o in guarded
      ensures !o.Broke? && !o.Continued?
    {
      NoEscape(s, o);
    }
    ScopeBelow(ctx, {}, base);
    LabelsStep(id, base, ctx, st, g0, BRANCHES, ends);
    GuardedOutside(id, s, ctx, base, g0, g.state, guarded, ends);
    ExplainedTrans(id, base, ctx, st, g0, g.state, ends);
    var normalList, exceptionList, returnList :=
      Antecedents(g.state.graph, base), Antecedents(g.state.graph, g.exceptions), Antecedents(g.state.graph, base + 1);
    LabelsStep(id, base, ctx, g.state, s2, [FinallyLabel(normalList + (exceptionList + returnList))], ends);
    ExplainedTrans(id, base, ctx, st, g.state, s2, ends);
    SameScope(ctx, base, |s2.graph|);
    BlockExact(id, s.finalizer.statements, ctx, s2, base, ends);
    ExplainedTrans(id, base, ctx, st, s2, s3, ends);
    GainedNew(g0.graph, g.state.graph, base);
    GainedNew(g0.graph, g.state.graph, base + 1);
    LeaveExact(id, base, ctx, s3, |g.state.graph|, normalList, exceptionList, returnList, ends);
    ExplainedTrans(id, base, ctx, st, s3, BindTry(s, ctx, st), ends);
  }

  lemma {:induction false} NoFinallyExact(id: nat, s: Stmt, ctx: Context, st: State)
    requires s.Try? && s.finalizer.NoBlock?
    requires PlainSeq(id, s.block, ShapeOf(ctx))
    requires (s.handler.SomeBlock? ==> PlainSeq(id, s.handler.statements, ShapeOf(ctx)) && s.block != [])
    requires Valid(st) && ctx.wrapping == 0 && InScope(ctx, {}, |st.graph|)
    ensures Exact(id, |st.graph|, ctx, st, BindTry(s, ctx, st), EndsOf(TryRun(s)))
    decreases s, 2
  {
    hide Explained, Gained, Valid, Dead, BindBlock, BindGuarded, Extends, EndsOf, InScope, PlainSeq, ShapeOf, TryRun,
         GuardedRun, FinishFlowLabel;
    var base, ends, guarded := |st.graph|, EndsOf(TryRun(s)), EndsOf(GuardedRun(s));
    var g0, g, out := NewLabels(st, BRANCHES), BindGuarded(s, ctx, st), BindTry(s, ctx, st);
    TryRuns(s);
    GuardedExact(id, s, ctx, st);
    GuardedGrows(s, ctx, st);
    ScopeBelow(ctx, {}, base);
    LabelsStep(id, base, ctx, st, g0, BRANCHES, ends);
    GuardedOutside(id, s, ctx, base, g0, g.state, guarded, ends);
    ExplainedTrans(id, base, ctx, st, g0, g.state, ends);
    ExplainedNothing(id, base, ctx, g.state, out, ends);
    ExplainedTrans(id, base, ctx, st, g.state, out, ends);
    if !Dead(out) {
      ResumedGained(g0.graph, g.state, base);
    }
  }

  lemma {:induction false} TryExact(id: nat, s: Stmt, labels: set<string>, ctx: Context, st: State)
    requires s.Try? && Plain(id, s, ShapeOf(ctx)) && Valid(st) && !Dead(st) && InScope(ctx, labels, |st.graph|)
    ensures Exact(id, |st.graph|, ctx, st, BindLive(s, ctx, st), EndsOf(LiveRun(s, labels)))
    decreases s, 3
  {
    hide Explained, Valid, Dead, BindTry, EndsOf, InScope, PlainSeq, Reason, ExecTry, Escapes;
    var inner, ends := Inner(ctx), EndsOf(LiveRun(s, labels));
    InScopeLater(ctx, labels, |st.graph|, |st.graph|);
    if s.finalizer.SomeBlock? {
      FinallyExact(id, s, inner, st);
    } else {
      NoFinallyExact(id, s, inner, st);
    }
    forall o | o in EndsOf(TryRun(s))
      ensures o in ends
    {
      SameEnds(LiveRun(s, labels), TryRun(s), o);
    }
    forall t: FlowId | t < |st.graph| && Reason(inner, t, EndsOf(TryRun(s)))
      ensures Reason(ctx, t, ends)
    {
      ReasonInner(ctx, t, EndsOf(TryRun(s)));
      ReasonMore(ctx, t, EndsOf(TryRun(s)), ends);
    }
    ExplainedOtherwise(id, |st.graph|, ctx, |st.graph|, inner, st, BindLive(s, ctx, st), ends, EndsOf(TryRun(s)));
  }

  // ----- statements without statements inside -----

  lemma {:induction false} BlockStmtExact(id: nat, s: Stmt, labels: set<string>, ctx: Context, st: State)
    requires s.Block? && Plain(id, s, ShapeOf(ctx)) && Valid(st) && !Dead(st) && InScope(ctx, labels, |st.graph|)
    ensures Exact(id, |st.graph|, ctx, st, BindLive(s, ctx, st), EndsOf(LiveRun(s, labels)))
    decreases s, 2
  {
    hide Valid, Dead, Explained, EndsOf, BindBlock, Reason, ExecSeq, PlainSeq;
    var ends, out := EndsOf(LiveRun(s, labels)), BindBlock(s.statements, Inner(ctx), st);
    InScopeLater(ctx, labels, |st.graph|, |st.graph|);
    forall o | o in EndsOf(SeqRun(s.statements))
      ensures o in ends
    {
      SameEnds(LiveRun(s, labels), SeqRun(s.statements), o);
    }
    BlockExact(id, s.statements, Inner(ctx), st, |st.graph|, ends);
    forall t: FlowId | t < |st.graph| && Reason(Inner(ctx), t, ends)
      ensures Reason(ctx, t, ends)
    {
      ReasonInner(ctx, t, ends);
    }
    ExplainedOtherwise(id, |st.graph|, ctx, |st.graph|, Inner(ctx), st, out, ends, ends);
  }

  lemma SameEnds(run: Machine -> Run, next: Machine -> Run, o: Outcome)
    requires o in EndsOf(next) && forall m :: run(m) == next(m)
    ensures o in EndsOf(run)
  {
    hide RunsBy;
    var c :| RunsBy(next, o, c);
    SameRuns(run, next, o, c);
  }

  /** After an expression that may be absent. */
  lemma OptionalEnds(run: Machine -> Run, e: Option<Expr>, o: Outcome)
    requires forall m :: EvalOptional(e, m).outcome.Value? ==> run(m).outcome == o && run(m).machine.future == EvalOptional(e, m).machine.future
    ensures o in EndsOf(run)
  {
    hide Eval, CanEval, EndsOf;
    match e
    case None =>
      forall m
        ensures run(m).outcome == o && run(m).machine.future == m.future
      {
        assert EvalOptional(e, m) == ExprRun(Value(true), m);
      }
      RunNow(run, o);
    case Some(x) =>
      var b := AnyValue(x);
      forall m | Eval(x, m).outcome == Value(b)
        ensures run(m).outcome == o && run(m).machine.future == Eval(x, m).machine.future
      {
        assert EvalOptional(e, m) == Eval(x, m);
      }
      EvalInto(run, x, b, o);
  }

  lemma VarExact(id: nat, s: Stmt, labels: set<string>, ctx: Context, st: State)
    requires s.Var? && Valid(st)
    ensures Exact(id, |st.graph|, ctx, st, BindLive(s, ctx, st), EndsOf(LiveRun(s, labels)))
  {
    hide Valid, Dead, Explained, EndsOf, BindOptional, EvalOptional, Mutate, Grows;
    var base, ends, s1 := |st.graph|, EndsOf(LiveRun(s, labels)), BindOptional(s.initializer, ctx.exceptionTarget, st);
    OptionalStep(id, base, ctx, s.initializer, st, ends);
    OptionalGrows(s.initializer, ctx.exceptionTarget, st);
    GrowsExtends(Optional(ctx.exceptionTarget), st, s1);
    MutateStep(id, base, ctx, s.target, s1, ends);
    ExplainedTrans(id, base, ctx, st, s1, Mutate(s1, ctx.exceptionTarget, s.target), ends);
    OptionalEnds(LiveRun(s, labels), s.initializer, Completed);
  }

  lemma ExprStmtExact(id: nat, s: Stmt, labels: set<string>, ctx: Context, st: State)
    requires s.ExprStmt? && Valid(st)
    ensures Exact(id, |st.graph|, ctx, st, BindLive(s, ctx, st), EndsOf(LiveRun(s, labels)))
  {
    hide Valid, Dead, Explained, EndsOf, BindExpr, Eval, CanEval, Grows;
    var base, ends, s1 := |st.graph|, EndsOf(LiveRun(s, labels)), BindExpr(s.expr, AsValue, ctx.exceptionTarget, st);
    ExprStep(id, base, ctx, s.expr, st, ends);
    ExprGrows(s.expr, AsValue, ctx.exceptionTarget, st);
    GrowsExtends(ModeTargets(AsValue) + Optional(ctx.exceptionTarget), st, s1);
    LabelsStep(id, base, ctx, s1, CallEffect(s1, s.expr), [AssertionCall(s.expr, s1.flow)], ends);
    ExplainedTrans(id, base, ctx, st, s1, CallEffect(s1, s.expr), ends);
    var b := AnyValue(s.expr);
    EvalInto(LiveRun(s, labels), s.expr, b, Completed);
  }

  lemma ThrowExact(id: nat, s: Stmt, labels: set<string>, ctx: Context, st: State)
    requires s.Throw? && Valid(st)
    ensures Exact(id, |st.graph|, ctx, st, BindLive(s, ctx, st), EndsOf(LiveRun(s, labels)))
  {
    hide Valid, Explained, EndsOf, BindExpr, Grows;
    var base, ends, s1 := |st.graph|, EndsOf(LiveRun(s, labels)), BindExpr(s.expr, AsValue, ctx.exceptionTarget, st);
    ExprStep(id, base, ctx, s.expr, st, ends);
    ExprGrows(s.expr, AsValue, ctx.exceptionTarget, st);
    ExplainedNothing(id, base, ctx, s1, Terminate(s1), ends);
    ExplainedTrans(id, base, ctx, st, s1, Terminate(s1), ends);
    TerminateDead(s1);
  }

  lemma TerminateDead(st: State)
    requires Valid(st)
    ensures Dead(Terminate(st))
  {
  }

  /** A flow that joins a target and ends there. */
  lemma JoinReason(id: nat, base: nat, ctx: Context, st: State, target: FlowId, ends: iset<Outcome>)
    requires Reason(ctx, target, ends)
    ensures Explained(id, base, ctx, st, Join(st, target), ends)
  {
    hide Gained, Reason, AddAntecedent;
    forall t: FlowId | t < base && Gained(st.graph, Join(st, target).graph, t)
      ensures Reason(ctx, t, ends)
    {
      JoinGained(st, target, st.flow, t);
    }
  }

  lemma ReturnExact(id: nat, s: Stmt, labels: set<string>, ctx: Context, st: State)
    requires s.Return? && Valid(st)
    ensures Exact(id, |st.graph|, ctx, st, BindLive(s, ctx, st), EndsOf(LiveRun(s, labels)))
  {
    hide Valid, Dead, Explained, EndsOf, BindOptional, EvalOptional, Grows, AddAntecedent;
    var base, ends, s1 := |st.graph|, EndsOf(LiveRun(s, labels)), BindOptional(s.result, ctx.exceptionTarget, st);
    var s2 := if ctx.returnTarget.Some? then Join(s1, ctx.returnTarget.value) else s1;
    OptionalStep(id, base, ctx, s.result, st, ends);
    OptionalGrows(s.result, ctx.exceptionTarget, st);
    OptionalEnds(LiveRun(s, labels), s.result, Returned);
    if ctx.returnTarget.Some? {
      JoinReason(id, base, ctx, s1, ctx.returnTarget.value, ends);
      FlowInRange(s1);
      JoinFromGrows(s1, ctx.returnTarget.value, s1.flow);
    } else {
      ExplainedNothing(id, base, ctx, s1, s2, ends);
    }
    var out := Terminate(s2).(explicitReturn := true);
    ExplainedNothing(id, base, ctx, s2, out, ends);
    ExplainedTrans(id, base, ctx, st, s1, s2, ends);
    ExplainedTrans(id, base, ctx, st, s2, out, ends);
    TerminateDead(s2);
    assert Dead(out) by { SameDead(Terminate(s2), out); }
  }

  lemma SameDead(a: State, b: State)
    requires Dead(a) && b.graph == a.graph && b.flow == a.flow
    ensures Dead(b)
  {
  }

  lemma JumpExact(id: nat, s: Stmt, labels: set<string>, ctx: Context, st: State)
    requires (s.Break? || s.Continue?) && Plain(id, s, ShapeOf(ctx)) && Valid(st)
    ensures Exact(id, |st.graph|, ctx, st, BindLive(s, ctx, st), EndsOf(LiveRun(s, labels)))
  {
    hide Valid, Dead, Explained, EndsOf, AddAntecedent, FindActiveLabel, Grows;
    var base, ends := |st.graph|, EndsOf(LiveRun(s, labels));
    var d := s.destination;
    if d.Some? {
      FoundShape(ctx.labels, d.value);
    }
    RunNow(LiveRun(s, labels), if s.Break? then Broke(d) else Continued(d));
    var target := if s.Break? then BreakTarget(ctx, d) else ContinueTarget(ctx, d);
    assert target.Some? && Reason(ctx, target.value, ends);
    JoinReason(id, base, ctx, st, target.value, ends);
    var s1 := Join(st, target.value);
    ExplainedNothing(id, base, ctx, s1, Terminate(s1), ends);
    ExplainedTrans(id, base, ctx, st, s1, Terminate(s1), ends);
    FlowInRange(st);
    JoinFromGrows(st, target.value, st.flow);
    TerminateDead(s1);
  }

  lemma EmptyExact(id: nat, s: Stmt, labels: set<string>, ctx: Context, st: State)
    requires s.Empty?
    ensures Exact(id, |st.graph|, ctx, st, BindLive(s, ctx, st), EndsOf(LiveRun(s, labels)))
  {
    hide Dead, Explained, EndsOf;
    ExplainedNothing(id, |st.graph|, ctx, st, st, EndsOf(LiveRun(s, labels)));
    RunNow(LiveRun(s, labels), Completed);
  }

  lemma {:induction false} LiveExact(id: nat, s: Stmt, labels: set<string>, ctx: Context, st: State)
    requires !s.Function? && Plain(id, s, ShapeOf(ctx)) && Valid(st) && !Dead(st) && InScope(ctx, labels, |st.graph|)
    ensures Exact(id, |st.graph|, ctx, st, BindLive(s, ctx, st), EndsOf(LiveRun(s, labels)))
    decreases s, 4
  {
    hide Plain, ShapeOf, Valid, Dead, InScope, Exact, BindLive, EndsOf;
    match s
    case If(_, _, _, _) => IfExact(id, s, labels, ctx, st);
    case While(_, _, _) => WhileExact(id, s, labels, ctx, st);
    case Do(_, _, _) => DoExact(id, s, labels, ctx, st);
    case For(_, _, _, _, _) => ForExact(id, s, labels, ctx, st);
    case ForOf(_, _, _, _) => ForOfExact(id, s, labels, ctx, st);
    case Labeled(_, _, _) => LabeledExact(id, s, labels, ctx, st);
    case Block(_, _) => BlockStmtExact(id, s, labels, ctx, st);
    case Var(_, _, _) => VarExact(id, s, labels, ctx, st);
    case ExprStmt(_, _) => ExprStmtExact(id, s, labels, ctx, st);
    case Throw(_, _) => ThrowExact(id, s, labels, ctx, st);
    case Return(_, _) => ReturnExact(id, s, labels, ctx, st);
    case Break(_, _) => JumpExact(id, s, labels, ctx, st);
    case Continue(_, _) => JumpExact(id, s, labels, ctx, st);
    case Empty(_) => EmptyExact(id, s, labels, ctx, st);
    case Switch(_, _, _) => SwitchExact(id, s, labels, ctx, st);
    case Try(_, _, _, _) => TryExact(id, s, labels, ctx, st);
  }

  // ----- functions -----

  const FUNCTION_SHAPE := Shape(false, false, [], 0)

  /** A function whose statements are plain; `id` is not used inside an inner function. */
  predicate PlainFunction(s: Stmt, id: nat) {
    s.Function? && PlainSeq(id, s.statements, FUNCTION_SHAPE)
  }

  lemma FunctionScope(s: Stmt, start: FlowId, size: nat)
    requires s.Function? && (s.isConstructor ==> start + 1 < size)
    ensures InScope(ContainerContext(s, start), {}, size) && ShapeOf(ContainerContext(s, start)) == FUNCTION_SHAPE
  {
    assert LabelTargets([]) == {};
    assert LabelShapes([]) == [];
  }

  /** The body of a plain function, explained by its endings. */
  lemma BodyExact(s: Stmt, st: State, id: nat) returns (s1: State)
    requires PlainFunction(s, id) && Valid(st)
    ensures Valid(s1) && BindContainer(s, st) == LeaveContainer(s, st, s1)
    ensures forall k :: k in s1.marks && k !in st.marks && k.id == id ==> k.FlowAt? && Reached(id) in EndsOf(SeqRun(s.statements))
    ensures !Dead(s1) ==> Completed in EndsOf(SeqRun(s.statements))
  {
    hide BindBlock, LeaveContainer, BindContainer, EndsOf, Extends, InScope, ShapeOf, PlainSeq, Valid, Dead;
    var s0;
    s0, s1 := BodyStages(s, st);
    FunctionScope(s, |st.graph|, |s0.graph|);
    BlockExact(id, s.statements, ContainerContext(s, |st.graph|), s0, |s0.graph|, EndsOf(SeqRun(s.statements)));
  }

  lemma EndsByBody(s: Stmt, o: Outcome) returns (choices: seq<Choice>)
    requires s.Function? && o in EndsOf(SeqRun(s.statements))
    ensures Body(s, choices).outcome == o
  {
    hide ExecSeq;
    var c :| RunsBy(SeqRun(s.statements), o, c);
    choices := c + [];
    assert RunEnds(SeqRun(s.statements), o, c, [], []);
  }

  /** Exactly the statements that some run of a plain function reaches get a flow recorded: nothing
      reachable is taken for unreachable, and nothing unreachable for reachable. Functions inside it are
      bound along the way, whatever they contain. */
  lemma ReachabilityExact(s: Stmt, st: State, id: nat)
    requires PlainFunction(s, id) && Valid(st) && forall f :: FlowAt(id, f) !in st.marks
    ensures (exists f :: FlowAt(id, f) in BindContainer(s, st).marks) <==> (exists choices :: Body(s, choices).outcome == Reached(id))
  {
    hide BindContainer, ExecSeq, EndsOf, PlainSeq, Valid;
    var s1 := BodyExact(s, st, id);
    if f :| FlowAt(id, f) in BindContainer(s, st).marks {
      LeavesFlows(s, st, s1, id, f);
      var choices := EndsByBody(s, Reached(id));
    }
    if choices :| Body(s, choices).outcome == Reached(id) {
      var f := ReachabilitySoundness(s, st, choices);
    }
  }

  lemma LeavesFlows(s: Stmt, before: State, st: State, id: nat, f: FlowId)
    requires s.Function? && FlowAt(id, f) in LeaveContainer(s, before, st).marks
    ensures FlowAt(id, f) in st.marks
  {
  }

  /** A plain function has an implicit return exactly if some run of its body completes. */
  lemma ImplicitReturnExact(s: Stmt, st: State)
    requires PlainFunction(s, s.id) && Valid(st) && HasImplicitReturn(s.id) !in st.marks
    ensures HasImplicitReturn(s.id) in BindContainer(s, st).marks <==> exists choices :: Body(s, choices).outcome.Completed?
  {
    hide BindContainer, ExecSeq, EndsOf, PlainSeq, Valid;
    var s1 := BodyExact(s, st, s.id);
    if HasImplicitReturn(s.id) in BindContainer(s, st).marks {
      LeavesReturn(s, st, s1);
      var choices := EndsByBody(s, Completed);
    }
    if choices :| Body(s, choices).outcome.Completed? {
      ImplicitReturn(s, st, choices);
    }
  }

  lemma LeavesReturn(s: Stmt, before: State, st: State)
    requires s.Function? && HasImplicitReturn(s.id) in LeaveContainer(s, before, st).marks
    requires HasImplicitReturn(s.id) !in st.marks
    ensures !Dead(st)
  {
  }
}
