/** None of the restrictions on plain functions can be dropped: for each there is a function that is plain but
    for this one, and a statement for which a flow is recorded although no run gets there. */
module ExactnessGaps {
  import opened Wrappers
  import opened Syntax
  import opened FlowGraph
  import opened FlowBuilder
  import opened FlowGrowth
  import opened Execution
  import opened Limits
  import opened FlowTheorems
  import opened FlowGaps
  import opened FlowMarks
  import opened StmtSoundness
  import opened FlowExactness

  /** A flow is recorded for the statement with this id, and no run of `s` reaches it. */
  ghost predicate Overrated(s: Stmt, id: nat)
    requires s.Function?
  {
    && (exists f :: FlowAt(id, f) in BindContainer(s, INITIAL).marks)
    && forall choices :: Body(s, choices).outcome != Reached(id)
  }

  lemma OverratedBy(ss: seq<Stmt>, id: nat, f: FlowId)
    requires FlowAt(id, f) in BindBlock(ss, FUNCTION_CONTEXT, START).marks
    requires forall choices :: ExecSeq(ss, Machine([], choices)).outcome != Reached(id)
    ensures Overrated(Program(ss), id)
  {
    hide BindBlock, ExecSeq;
    assert INITIAL.graph + [Start] == START.graph;
    assert NewLabels(INITIAL, [Start]).(flow := 2, explicitReturn := false) == START;
    assert FlowAt(id, f) in BindContainer(Program(ss), INITIAL).marks;
  }

  lemma OneNotPlain(s: Stmt, id: nat)
    requires !Plain(id, s, FUNCTION_SHAPE)
    ensures !PlainFunction(Program([s]), id)
  {
  }

  const GUARDED := ExprStmt(2, Opaque(3))

  lemma GuardedBound(ctx: Context, st: State)
    requires !Dead(st)
    ensures BindStmt(GUARDED, ctx, st) == st.(marks := st.marks + {FlowAt(2, st.flow)})
  {
  }

  // ----- a condition that is fixed without showing it -----

  /** if (!true) guarded; */
  const NEGATED := If(1, Not(TrueLiteral), GUARDED, None)

  lemma NegatedRuns(m: Machine)
    ensures Exec(NEGATED, {}, m).outcome != Reached(2)
  {
    if m.future != [] && m.future[0].Yes? {
      var r := Eval(Not(TrueLiteral), Tick(m));
      assert r.outcome.Value? ==> !r.outcome.truthy;
    }
  }

  lemma NegatedCondition(st: State) returns (s1: State)
    requires st.graph == [Unreachable, Unreachable, Start, BranchLabel([]), BranchLabel([]), BranchLabel([])]
    requires st.flow == 2
    ensures s1 == BindCondition(Not(TrueLiteral), 3, 4, None, st)
    ensures s1.graph == st.graph[3 := BranchLabel([2])][4 := BranchLabel([2])] && s1.flow == 2 && s1.marks == st.marks
  {
    var e := Not(TrueLiteral);
    assert [2] + [] == [2];
    assert !IsNarrowing(e) && !IsLogicalExpression(e) && !IsLogicalAssignment(e);
    assert BindExpr(e, AsBranch(3, 4), None, st) == st;
    var s0 := AddCondition(st, 3, true, Some(e));
    assert s0.graph == st.graph[3 := BranchLabel([2])];
    s1 := AddCondition(s0, 4, false, Some(e));
  }

  /** A negated literal is no logical expression, and it narrows nothing. */
  lemma NegatedLiteral()
    ensures !PlainFunction(Program([NEGATED]), 2) && Overrated(Program([NEGATED]), 2)
  {
    hide PlainFunction, Overrated, Exec, BindStmt, BindBlock, ExecSeq, BindCondition;
    OneNotPlain(NEGATED, 2);
    NegatedMarks();
    OneBound(NEGATED, FUNCTION_CONTEXT, START);
    forall choices
      ensures ExecSeq([NEGATED], Machine([], choices)).outcome != Reached(2)
    {
      OneRun(NEGATED, Machine([], choices));
      NegatedRuns(Machine([], choices));
    }
    OverratedBy([NEGATED], 2, 2);
  }

  lemma NegatedMarks()
    ensures FlowAt(2, 2) in BindStmt(NEGATED, FUNCTION_CONTEXT, START).marks
  {
    hide BindCondition, AddAntecedent, BindContainer, BindDead, BindBlock;
    var st := Record(NEGATED, START);
    var s0 := NewLabels(st, BRANCHES);
    var s1 := NegatedCondition(s0);
    var r1 := Resume(s1, 3);
    assert r1.flow == 2;
    GuardedBound(Inner(FUNCTION_CONTEXT), r1);
    hide BindStmt;
    var t := BindStmt(GUARDED, Inner(FUNCTION_CONTEXT), r1);
    assert BindLive(NEGATED, FUNCTION_CONTEXT, st) == Resume(Join(Resume(Join(t, 5), 4), 5), 5);
    NegatedLive();
  }

  lemma NegatedLive()
    ensures BindStmt(NEGATED, FUNCTION_CONTEXT, START) == BindLive(NEGATED, FUNCTION_CONTEXT, Record(NEGATED, START))
  {
    hide BindLive, BindContainer, BindDead;
  }

  // ----- an empty try block -----

  /** try { } catch { guarded; } */
  const UNRAISED := Try(1, [], SomeBlock([GUARDED]), NoBlock)

  lemma UnraisedRuns(m: Machine)
    ensures Exec(UNRAISED, {}, m).outcome != Reached(2)
  {
    if m.future != [] && m.future[0].Yes? {
      assert ExecSeq([], Tick(m)) == Run(Completed, Tick(m));
      assert ExecGuarded(UNRAISED, Tick(m)) == Run(Completed, Tick(m));
      assert ExecTry(UNRAISED, Tick(m)) == Run(Completed, Tick(m));
    }
  }

  const CATCHING: Graph := [Unreachable, Unreachable, Start, BranchLabel([]), BranchLabel([]), BranchLabel([2])]

  lemma EmptyTryBlock(st: State) returns (s1: State)
    requires st.graph == START.graph && st.flow == 2
    ensures s1 == BindTryBlock(UNRAISED, FUNCTION_CONTEXT, st)
    ensures s1.graph == CATCHING[3 := BranchLabel([2])] && s1.flow == 2 && s1.marks == st.marks
  {
    assert [2] + [] == [2];
    var e0 := Join(NewLabels(st, BRANCHES), 5);
    assert e0.graph == CATCHING;
    var inner := TryContext(UNRAISED, FUNCTION_CONTEXT, 4, 5);
    assert BindFunctions([], e0) == e0 && BindOthers([], inner, e0) == e0;
    assert BindBlock([], inner, e0) == e0;
    s1 := BindTryBlock(UNRAISED, FUNCTION_CONTEXT, st);
    assert s1 == Join(e0, 3);
  }

  lemma UnraisedMarks()
    ensures FlowAt(2, 2) in BindStmt(UNRAISED, FUNCTION_CONTEXT, START).marks
  {
    hide BindTryBlock, BindContainer, BindDead, BindBlock, BindStmt;
    var st := Record(UNRAISED, START);
    var s1 := EmptyTryBlock(st);
    var c0 := Resume(s1, 5);
    assert c0.flow == 2;
    var c1 := Join(NewNode(c0, BranchLabel([])), 6);
    var inner := TryContext(UNRAISED, FUNCTION_CONTEXT, 4, 6);
    OneBound(GUARDED, inner, c1);
    GuardedBound(inner, c1);
    var t := BindBlock([GUARDED], inner, c1);
    assert BindGuarded(UNRAISED, FUNCTION_CONTEXT, st) == Guarded(Join(t, 3), 6);
    hide BindGuarded;
    assert BindTry(UNRAISED, FUNCTION_CONTEXT, st) == Resume(Join(t, 3), 3);
    UnraisedLive();
  }

  lemma UnraisedLive()
    ensures BindStmt(UNRAISED, FUNCTION_CONTEXT, START) == BindTry(UNRAISED, FUNCTION_CONTEXT, Record(UNRAISED, START))
  {
    hide BindTry, BindContainer, BindDead;
    assert Inner(FUNCTION_CONTEXT) == FUNCTION_CONTEXT;
  }

  /** The catch clause of an empty try block is entered from before the block. */
  lemma EmptyTry()
    ensures !PlainFunction(Program([UNRAISED]), 2) && Overrated(Program([UNRAISED]), 2)
  {
    hide PlainFunction, Overrated, Exec, BindStmt, BindBlock, ExecSeq;
    OneNotPlain(UNRAISED, 2);
    UnraisedMarks();
    OneBound(UNRAISED, FUNCTION_CONTEXT, START);
    forall choices
      ensures ExecSeq([UNRAISED], Machine([], choices)).outcome != Reached(2)
    {
      OneRun(UNRAISED, Machine([], choices));
      UnraisedRuns(Machine([], choices));
    }
    OverratedBy([UNRAISED], 2, 2);
  }

  // ----- a jump through a finally block that does not complete -----

  /** a: try { break a; } finally { return; } */
  const JUMPING := Try(2, [Break(3, Some("a"))], NoBlock, SomeBlock([Return(4, None)]))
  const LABELLED := Labeled(1, "a", JUMPING)

  lemma ReturnRuns(m: Machine)
    ensures var o := Exec(Return(4, None), {}, m).outcome;
            !o.Completed? && !o.Broke? && o != Reached(9)
  {
  }

  lemma JumpingRuns(m: Machine)
    ensures var o := ExecTry(JUMPING, m).outcome;
            !o.Completed? && !o.Broke? && o != Reached(9)
  {
    var b, f := Break(3, Some("a")), Return(4, None);
    OneRun(b, m);
    var r := Exec(b, {}, m);
    assert !r.outcome.Completed? && r.outcome != Reached(9);
    hide Exec, ExecSeq;
    assert ExecGuarded(JUMPING, m) == r;
    OneRun(f, r.machine);
    ReturnRuns(r.machine);
  }

  lemma LabelledRuns(m: Machine)
    ensures var o := Exec(LABELLED, {}, m).outcome;
            !o.Completed? && o != Reached(9)
  {
    hide ExecTry;
    if m.future != [] && m.future[0].Yes? {
      JumpingEnds(Tick(m));
    }
  }

  lemma JumpingEnds(m: Machine)
    ensures var o := Exec(JUMPING, {} + {"a"}, m).outcome;
            !o.Completed? && !o.Broke? && o != Reached(9)
  {
    hide ExecTry;
    if m.future != [] && m.future[0].Yes? {
      JumpingRuns(Tick(m));
    }
  }

  const LEAVING: Graph := [Unreachable, Unreachable, Start, BranchLabel([]), BranchLabel([]), BranchLabel([]), BranchLabel([2])]

  /** The break joins its target at once. */
  lemma BreakBound(ctx: Context, st: State) returns (r: State)
    requires FindActiveLabel(ctx.labels, "a") == Some(ActiveLabel("a", 3, None)) && st.graph == LEAVING && st.flow == 2
    ensures r == BindBlock([Break(3, Some("a"))], ctx, st)
    ensures r.graph == LEAVING[3 := BranchLabel([2])] && r.flow == 0 && r.marks == st.marks + {FlowAt(3, 2)}
  {
    hide BindContainer, BindDead;
    var b := Break(3, Some("a"));
    assert [2] + [] == [2];
    OneBound(b, ctx, st);
    hide BindBlock;
    r := BindStmt(b, ctx, st);
    assert r == BindLive(b, ctx, Record(b, st));
    assert BreakTarget(ctx, Some("a")) == Some(3);
    assert r == Terminate(Join(Record(b, st), 3));
  }

  lemma JumpGuarded(ctx: Context, st: State) returns (r: State)
    requires FindActiveLabel(ctx.labels, "a") == Some(ActiveLabel("a", 3, None))
    requires st.graph == START.graph + [BranchLabel([])] && st.flow == 2
    ensures BindGuarded(JUMPING, ctx, st) == Guarded(r, 6)
    ensures r.graph == LEAVING[3 := BranchLabel([2])] && r.flow == 0
  {
    hide BindBlock;
    assert [2] + [] == [2];
    var e0 := Join(NewLabels(st, BRANCHES), 6);
    assert e0.graph == LEAVING;
    var t := BreakBound(TryContext(JUMPING, ctx, 5, 6), e0);
    r := Join(t, 4);
    assert BindTryBlock(JUMPING, ctx, st) == r;
  }

  lemma ReturnBound(ctx: Context, st: State) returns (r: State)
    requires ctx.returnTarget.None? && !Dead(st)
    ensures r == BindBlock([Return(4, None)], ctx, st) && r.graph == st.graph && r.flow == 0
  {
    hide BindContainer, BindDead;
    var s := Return(4, None);
    OneBound(s, ctx, st);
    hide BindBlock;
    r := BindStmt(s, ctx, st);
    assert r == BindLive(s, ctx, Record(s, st));
    assert r == Terminate(Record(s, st)).(explicitReturn := true);
  }

  lemma JumpBound(ctx: Context, st: State) returns (r: State)
    requires FindActiveLabel(ctx.labels, "a") == Some(ActiveLabel("a", 3, None)) && ctx.returnTarget.None?
    requires st.graph == START.graph + [BranchLabel([])] && st.flow == 2
    ensures r == BindTry(JUMPING, ctx, st)
    ensures |r.graph| > 3 && r.graph[..4] == START.graph + [BranchLabel([2])] && r.flow == 0
  {
    hide BindBlock, BindGuarded;
    var s1 := JumpGuarded(ctx, st);
    var s2 := NewNode(SealParts(s1, 4, 6, 5), FinallyLabel([] + ([2] + []))).(flow := 7);
    var s3 := ReturnBound(ctx, s2);
    assert s3.graph == s1.graph + [FinallyLabel([] + ([2] + []))];
    assert Dead(s3);
    r := BindTry(JUMPING, ctx, st);
    assert r == s3.(flow := 0);
  }

  lemma LabelledBound() returns (r: State)
    ensures r == BindStmt(LABELLED, FUNCTION_CONTEXT, START) && !Dead(r) && r.flow == 2
  {
    hide BindTry, BindContainer, BindDead, BindBlock;
    var st := Record(LABELLED, START);
    var inner := LabelContext(FUNCTION_CONTEXT, "a", 3);
    var s0 := NewNode(st, BranchLabel([]));
    var t0 := Record(JUMPING, s0);
    assert FindActiveLabel(Inner(inner).labels, "a") == Some(ActiveLabel("a", 3, None));
    var s1 := JumpBound(Inner(inner), t0);
    LabelledEnd(s1);
    JumpingLive(inner, s0);
    hide BindStmt, Resume, AddAntecedent;
    r := Resume(Join(s1, 3), 3);
    assert BindLive(LABELLED, FUNCTION_CONTEXT, st) == r;
    LabelledLive();
  }

  lemma LabelledEnd(st: State)
    requires |st.graph| > 3 && st.graph[..4] == START.graph + [BranchLabel([2])] && st.flow == 0
    ensures !Dead(Resume(Join(st, 3), 3)) && Resume(Join(st, 3), 3).flow == 2
  {
    assert st.graph[3] == st.graph[..4][3] && st.graph[0] == st.graph[..4][0] && st.graph[2] == st.graph[..4][2];
  }

  lemma JumpingLive(ctx: Context, st: State)
    requires !Dead(st)
    ensures BindStmt(JUMPING, ctx, st) == BindTry(JUMPING, Inner(ctx), Record(JUMPING, st))
  {
    hide BindTry, BindContainer, BindDead;
  }

  lemma LabelledLive()
    ensures BindStmt(LABELLED, FUNCTION_CONTEXT, START) == BindLive(LABELLED, FUNCTION_CONTEXT, Record(LABELLED, START))
  {
    hide BindLive, BindContainer, BindDead;
  }

  /** A jump joins its target from inside the try block, whatever the finally block does. */
  lemma JumpThroughFinally()
    ensures !PlainFunction(Program([LABELLED, LAST]), 9) && Overrated(Program([LABELLED, LAST]), 9)
  {
    hide PlainFunction, Overrated, Exec, BindStmt, BindBlock, ExecSeq;
    JumpingNotPlain();
    var r := LabelledBound();
    TwoBound(LABELLED, LAST, FUNCTION_CONTEXT, START);
    LastBound(FUNCTION_CONTEXT, r);
    forall choices
      ensures ExecSeq([LABELLED, LAST], Machine([], choices)).outcome != Reached(9)
    {
      TwoRun(LABELLED, LAST, Machine([], choices));
      LabelledRuns(Machine([], choices));
    }
    OverratedBy([LABELLED, LAST], 9, 2);
  }

  lemma JumpingNotPlain()
    ensures !PlainFunction(Program([LABELLED, LAST]), 9)
  {
    var b := Break(3, Some("a"));
    assert EscapesSeq([b]) == Escapes(b, {}) + EscapesSeq([b][1..]);
    assert BreakTo(Some("a")) in Escapes(JUMPING, {});
    assert !Plain(9, JUMPING, LabelShape(FUNCTION_SHAPE, "a"));
    assert !Plain(9, LABELLED, FUNCTION_SHAPE);
  }

  // ----- a jump without a target -----

  /** break; */
  const STRAY := Break(1, None)

  lemma StrayBound(st: State)
    requires !Dead(st)
    ensures BindStmt(STRAY, FUNCTION_CONTEXT, st) == Record(STRAY, st)
  {
    hide BindDead, BindContainer;
    assert BindLive(STRAY, FUNCTION_CONTEXT, Record(STRAY, st)) == Jump(Record(STRAY, st), None);
  }

  lemma StrayRuns(m: Machine)
    ensures var o := Exec(STRAY, {}, m).outcome;
            !o.Completed? && o != Reached(2)
  {
  }

  /** A jump without a target, a syntax error, leaves the flow as it is. */
  lemma StrayJump()
    ensures !PlainFunction(Program([STRAY, GUARDED]), 2) && Overrated(Program([STRAY, GUARDED]), 2)
  {
    hide Overrated, Exec, BindStmt, BindBlock, ExecSeq;
    assert !Plain(2, STRAY, FUNCTION_SHAPE);
    StrayBound(START);
    TwoBound(STRAY, GUARDED, FUNCTION_CONTEXT, START);
    GuardedBound(FUNCTION_CONTEXT, Record(STRAY, START));
    forall choices
      ensures ExecSeq([STRAY, GUARDED], Machine([], choices)).outcome != Reached(2)
    {
      TwoRun(STRAY, GUARDED, Machine([], choices));
      StrayRuns(Machine([], choices));
    }
    OverratedBy([STRAY, GUARDED], 2, 2);
  }

  // ----- a statement of an inner function -----

  /** function () { guarded; } */
  const INNER := Function(1, false, [GUARDED])

  lemma InnerRuns(m: Machine)
    ensures Exec(INNER, {}, m).outcome != Reached(2)
  {
  }

  lemma InnerBound()
    ensures FlowAt(2, 3) in BindBlock([INNER], FUNCTION_CONTEXT, START).marks
  {
    hide BindOthers;
    var s0 := NewLabels(START, [Start]).(flow := 3, explicitReturn := false);
    OneBound(GUARDED, FUNCTION_CONTEXT, s0);
    GuardedBound(FUNCTION_CONTEXT, s0);
    hide BindBlock, BindStmt;
    assert FlowAt(2, 3) in BindContainer(INNER, START).marks;
    InnerFirst();
  }

  lemma InnerFirst()
    ensures BindBlock([INNER], FUNCTION_CONTEXT, START) == BindContainer(INNER, START)
  {
    hide BindContainer;
    var s1 := BindContainer(INNER, START);
    assert [INNER][1..] == [];
    assert BindFunctions([INNER][1..], s1) == s1;
    assert BindOthers([INNER][1..], FUNCTION_CONTEXT, s1) == s1;
  }

  /** The runs of a function do not reach the statements of the functions inside it. */
  lemma InnerFunction()
    ensures !PlainFunction(Program([INNER]), 2) && Overrated(Program([INNER]), 2)
  {
    hide PlainFunction, Overrated, Exec, BindStmt, BindBlock, ExecSeq;
    assert !Plain(2, INNER, FUNCTION_SHAPE) by { InnerId(); }
    OneNotPlain(INNER, 2);
    InnerBound();
    forall choices
      ensures ExecSeq([INNER], Machine([], choices)).outcome != Reached(2)
    {
      OneRun(INNER, Machine([], choices));
      InnerRuns(Machine([], choices));
    }
    OverratedBy([INNER], 2, 3);
  }

  lemma InnerId()
    ensures 2 in Ids(INNER)
  {
    assert Ids(GUARDED) == {2};
    assert IdsSeq([GUARDED]) == Ids(GUARDED) + IdsSeq([GUARDED][1..]);
  }

  // ----- two default clauses -----

  /** switch (1) { default: break; default: guarded; } */
  const LEAVE := Break(4, None)
  const FIRST := Clause(None, [LEAVE])
  const SECOND := Clause(None, [GUARDED])
  const DOUBLE := Switch(1, Opaque(104), [FIRST, SECOND])

  lemma DoubleRuns(m: Machine)
    ensures ExecSwitch(DOUBLE, m).outcome != Reached(2)
  {
    var clauses := [FIRST, SECOND];
    assert clauses[0] in clauses && HasDefault(clauses);
    assert SelectClause(clauses, 2, m) == SelectRun(NoMatch, m);
    assert SelectClause(clauses, 1, m) == SelectRun(NoMatch, m);
    assert SelectClause(clauses, 0, m) == SelectRun(NoMatch, m);
    assert DefaultIndex(clauses) == 0;
    var m' := Emit(m, Selected(1, Some(0)));
    OneRun(LEAVE, m');
    LeaveRuns(m');
    hide ExecSeq, Exec;
    assert ExecClauses(clauses, 0, m') == Exec(LEAVE, {}, m');
  }

  lemma LeaveRuns(m: Machine)
    ensures var o := Exec(LEAVE, {}, m).outcome;
            !o.Completed? && o != Reached(2)
  {
  }

  lemma SwitchRuns(m: Machine)
    ensures Exec(DOUBLE, {}, m).outcome != Reached(2)
  {
    hide ExecSwitch;
    if m.future != [] && m.future[0].Yes? {
      var a := Eval(Opaque(104), Tick(m));
      DoubleRuns(a.machine);
    }
  }

  lemma FirstGroup(s: Stmt, start: nat, st: State) returns (r: State)
    requires s.Switch? && s.expr == Opaque(104) && |st.graph| > 2 && st.graph[0] == Unreachable && st.graph[2] == Start
    ensures r == EnterGroup(s, start, start + 1, 2, UNREACHABLE_FLOW, st)
    ensures r.graph == st.graph + [BranchLabel([2])] && r.flow == 2 && r.marks == st.marks
  {
    assert [2] + [] == [2];
    var s0 := NewNode(st, BranchLabel([]));
    var s1 := JoinFrom(s0, |st.graph|, 2);
    assert s1.graph == st.graph + [BranchLabel([2])];
    assert JoinFrom(s1, |st.graph|, UNREACHABLE_FLOW) == s1;
    r := EnterGroup(s, start, start + 1, 2, UNREACHABLE_FLOW, st);
  }

  lemma FirstClause(ctx: Context, st: State) returns (r: State)
    requires ctx.breakTarget == Some(3) && st.graph == TEST_POST + [BranchLabel([2])] && st.flow == 2
    ensures r == BindClause(FIRST, 2, ctx, st)
    ensures r.graph == TEST_POST[3 := BranchLabel([2])] + [BranchLabel([2])] && r.flow == UNREACHABLE_FLOW
  {
    hide BindContainer, BindDead;
    assert [2] + [] == [2];
    var s1 := BindStmt(LEAVE, ctx, st);
    assert s1 == BindLive(LEAVE, ctx, Record(LEAVE, st));
    assert s1 == Terminate(Join(Record(LEAVE, st), 3));
    hide BindStmt;
    assert [LEAVE][1..] == [];
    assert BindEach([LEAVE][1..], ctx, s1) == s1;
    r := BindClause(FIRST, 2, ctx, st);
  }

  lemma SecondClause(ctx: Context, st: State) returns (r: State)
    requires !Dead(st)
    ensures r == BindClause(SECOND, 2, ctx, st) && r == st.(marks := st.marks + {FlowAt(2, st.flow)})
  {
    GuardedBound(ctx, st);
    hide BindStmt;
    var s1 := BindStmt(GUARDED, ctx, st);
    assert [GUARDED][1..] == [];
    assert BindEach([GUARDED][1..], ctx, s1) == s1;
    r := BindClause(SECOND, 2, ctx, st);
  }

  lemma TwoGroups(ctx: Context, st: State) returns (r: State)
    requires ctx.breakTarget == Some(3) && st.graph == TEST_POST && st.flow == 2
    ensures r == BindClauses(DOUBLE, [FIRST, SECOND], 0, 2, UNREACHABLE_FLOW, ctx, st) && FlowAt(2, 2) in r.marks
  {
    hide BindClause, EnterGroup;
    var a := FirstGroup(DOUBLE, 0, st);
    var b := FirstClause(ctx, a);
    var c := FirstGroup(DOUBLE, 1, b);
    r := SecondClause(ctx, c);
    var all := [FIRST, SECOND];
    assert all[1..] == [SECOND] && [SECOND][1..] == [];
    assert BindClauses(DOUBLE, [SECOND][1..], 2, 2, r.flow, ctx, r) == r;
    assert BindClauses(DOUBLE, [SECOND], 1, 2, b.flow, ctx, b) == r;
  }

  lemma DoubleMarks()
    ensures FlowAt(2, 2) in BindStmt(DOUBLE, FUNCTION_CONTEXT, START).marks
  {
    assert FIRST in [FIRST, SECOND];
    hide BindStmt, BindClauses;
    var st := Record(DOUBLE, START);
    var s1 := NewNode(st, BranchLabel([]));
    var ctx := SwitchContext(FUNCTION_CONTEXT, |START.graph|);
    var c := TwoGroups(ctx, s1);
    var r := SwitchBound(DOUBLE, START, s1, c);
  }

  lemma DoubleNotPlain()
    ensures !PlainFunction(Program([DOUBLE]), 2)
  {
    var clauses := [FIRST, SECOND];
    assert clauses[0].test.None? && clauses[1].test.None?;
    assert !OneDefault(clauses);
    assert !Plain(2, DOUBLE, FUNCTION_SHAPE);
    OneNotPlain(DOUBLE, 2);
  }

  /** Of two default clauses, a syntax error, only one is ever selected. */
  lemma TwoDefaults()
    ensures !PlainFunction(Program([DOUBLE]), 2) && Overrated(Program([DOUBLE]), 2)
  {
    hide PlainFunction, Overrated, Exec, BindStmt, BindBlock, ExecSeq;
    DoubleNotPlain();
    DoubleMarks();
    OneBound(DOUBLE, FUNCTION_CONTEXT, START);
    forall choices
      ensures ExecSeq([DOUBLE], Machine([], choices)).outcome != Reached(2)
    {
      OneRun(DOUBLE, Machine([], choices));
      SwitchRuns(Machine([], choices));
    }
    OverratedBy([DOUBLE], 2, 2);
  }
}
