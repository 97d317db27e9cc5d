/** None of the restrictions on simple functions can be dropped: for each there is a function, and a run
    of it, that the flow graph does not account for. */
module FlowGaps {
  import opened Wrappers
  import opened Syntax
  import opened FlowGraph
  import opened FlowBuilder
  import opened Execution
  import opened Walks
  import opened Limits
  import opened StmtSoundness
  import opened FlowGrowth
  import opened FlowTheorems

  /** A part of a graph that no walk leaves and that holds no assignment. */
  ghost predicate Assignmentless(g: Graph, part: set<FlowId>) {
    forall n :: n in part ==>
      && n < |g| && !g[n].FinallyLabel? && !g[n].Assignment?
      && forall p :: p in Predecessors(g, n, map[]) ==> p in part
  }

  lemma {:induction false} NoAssignmentSteps(w: World, part: set<FlowId>, n: FlowId, env: Env, path: seq<FlowId>)
    requires Assignmentless(w.graph, part) && n in part && IsWalk(w, n, env, path)
    ensures AssignmentSteps(Steps(w.graph, n, path)) == []
    decreases path
  {
    if path != [] {
      assert Predecessors(w.graph, n, env) == Predecessors(w.graph, n, map[]);
      NoAssignmentSteps(w, part, path[0], NextEnv(w.graph, n, env), path[1..]);
      var steps := Steps(w.graph, path[0], path[1..]);
      if StepsAt(w.graph, n) != [] {
        assert (steps + StepsAt(w.graph, n))[..|steps|] == steps;
      } else {
        assert steps + StepsAt(w.graph, n) == steps;
      }
    }
  }

  lemma NotExplained(w: World, part: set<FlowId>, n: FlowId, past: seq<Event>)
    requires w.precise && Assignmentless(w.graph, part) && n in part && AssignmentEvents(past) != []
    ensures !Explains(w, n, past)
  {
    if Matched(w, n, map[], past) {
      var path :| IsWalk(w, n, map[], path) && Embeds(Steps(w.graph, n, path), past);
      NoAssignmentSteps(w, part, n, map[], path);
      EmbedsSameAssignments(Steps(w.graph, n, path), past);
    }
  }

  /** The run of `s` under `choices` reaches a statement, and no flow recorded for it explains the run. */
  ghost predicate Unexplained(s: Stmt, choices: seq<Choice>)
    requires s.Function?
  {
    var out, r := BindContainer(s, INITIAL), Body(s, choices);
    && r.outcome.Reached?
    && forall f :: FlowAt(r.outcome.id, f) in out.marks ==> !Explains(World(out.graph, 2, true), f, r.machine.past)
  }

  // ----- unfolding short programs -----

  lemma OneBound(a: Stmt, ctx: Context, st: State)
    requires !a.Function? && !Dead(st)
    ensures BindBlock([a], ctx, st) == BindStmt(a, ctx, st)
  {
    assert [a][1..] == [];
    assert BindFunctions([a][1..], st) == st;
    var s1 := BindStmt(a, ctx, st);
    assert BindOthers([a][1..], ctx, s1) == s1;
  }

  lemma TwoBound(a: Stmt, b: Stmt, ctx: Context, st: State)
    requires !a.Function? && !b.Function? && !Dead(st)
    ensures BindBlock([a, b], ctx, st) == BindStmt(b, ctx, BindStmt(a, ctx, st))
  {
    assert [a, b][1..] == [b] && [b][1..] == [];
    assert BindFunctions([b][1..], st) == st;
    assert BindFunctions([b], st) == st;
    var s1 := BindStmt(a, ctx, st);
    var s2 := BindStmt(b, ctx, s1);
    assert BindOthers([b][1..], ctx, s2) == s2;
    assert BindOthers([b], ctx, s1) == s2;
  }

  lemma OneRun(a: Stmt, m: Machine)
    ensures ExecSeq([a], m) == Exec(a, {}, m)
  {
    var r := Exec(a, {}, m);
    assert ExecSeq([a][1..], r.machine) == Run(Completed, r.machine);
  }

  lemma TwoRun(a: Stmt, b: Stmt, m: Machine)
    ensures var r := Exec(a, {}, m);
            ExecSeq([a, b], m) == if r.outcome.Completed? then Exec(b, {}, r.machine) else r
  {
    var r := Exec(a, {}, m);
    assert [a, b][1..] == [b];
    OneRun(b, r.machine);
  }

  const X := Assign("x", 100, Opaque(101))
  const LAST := ExprStmt(9, Opaque(102))
  const START := State([Unreachable, Unreachable, Start], 2, false, false, {}, {})

  function Program(ss: seq<Stmt>): Stmt {
    Function(0, false, ss)
  }

  lemma XBound(exceptionTarget: Option<FlowId>, st: State)
    requires !Dead(st)
    ensures BindExpr(X, AsValue, exceptionTarget, st) == Mutate(st, exceptionTarget, "x")
  {
  }

  lemma LastBound(ctx: Context, st: State)
    requires !Dead(st)
    ensures BindStmt(LAST, ctx, st) == st.(marks := st.marks + {FlowAt(9, st.flow)})
  {
  }

  lemma XRun(m: Machine)
    requires |m.future| >= 2 && m.future[0].Yes? && !m.future[1].No?
    ensures var past := m.past + [Evaluated(Opaque(101), true), Assigned("x")];
            Eval(X, m) == if m.future[1].Yes? then ExprRun(Value(true), Machine(past + [Evaluated(X, true)], m.future[2..]))
                          else ExprRun(Threw, Machine(past, m.future[2..]))
  {
    var a := Eval(Opaque(101), m);
    assert a.machine == Machine(m.past + [Evaluated(Opaque(101), true)], m.future[1..]);
    assert m.past + [Evaluated(Opaque(101), true)] + [Assigned("x")] == m.past + [Evaluated(Opaque(101), true), Assigned("x")];
    assert m.future[1..][1..] == m.future[2..];
  }

  /** A function whose body, bound to `s1`, records for a statement only flows in `part`. */
  lemma Missed(ss: seq<Stmt>, s1: State, part: set<FlowId>, choices: seq<Choice>, id: nat, m: Machine)
    requires s1 == BindBlock(ss, FUNCTION_CONTEXT, START) && Assignmentless(s1.graph, part)
    requires forall f :: FlowAt(id, f) in s1.marks ==> f in part
    requires Body(Program(ss), choices) == Run(Reached(id), m) && AssignmentEvents(m.past) != []
    ensures Unexplained(Program(ss), choices)
  {
    hide BindBlock, ExecSeq, Explains, Assignmentless;
    var s := Program(ss);
    var out := BindContainer(s, INITIAL);
    assert INITIAL.graph + [Start] == START.graph;
    assert NewLabels(INITIAL, [Start]).(flow := 2, explicitReturn := false) == START;
    assert out.graph == s1.graph;
    forall f | FlowAt(id, f) in out.marks
      ensures !Explains(World(out.graph, 2, true), f, m.past)
    {
      NotExplained(World(out.graph, 2, true), part, f, m.past);
    }
  }

  // ----- a continue past an assigning incrementor -----

  /** for (;; x = 1) continue; */
  predicate IsContinued(s: Stmt) {
    s == For(1, None, None, Some(X), Continue(2, None))
  }

  lemma ContinuedHead(st: State) returns (t: State)
    requires st.graph == [Unreachable, Unreachable, Start, LoopLabel([]), BranchLabel([]), BranchLabel([])]
    requires st.flow == 3
    ensures Valid(st)
    ensures t == Resume(BindOptionalCondition(None, 4, 5, None, st), 4)
    ensures t.graph == st.graph[4 := BranchLabel([3])] && t.flow == 3 && t.marks == st.marks
  {
    var s2 := BindOptionalCondition(None, 4, 5, None, st);
    AbsentCondition(st, 4, 5);
    assert [3] + [] == [3];
    assert s2.graph == st.graph[4 := BranchLabel([3])];
    t := Resume(s2, 4);
  }

  lemma ContinuedBody(s: Stmt, ctx: Context, t: State) returns (s3: State)
    requires s.Continue? && s.destination.None? && ctx.continueTarget == Some(3)
    requires t.graph == [Unreachable, Unreachable, Start, LoopLabel([]), BranchLabel([3]), BranchLabel([])]
    requires t.flow == 3
    ensures s3 == BindStmt(s, ctx, t)
    ensures s3.graph == t.graph[3 := LoopLabel([3])] && s3.flow == 0 && s3.marks == t.marks + {FlowAt(s.id, 3)}
  {
    hide BindContainer, BindDead;
    assert [3] + [] == [3];
    assert ContinueTarget(ctx, None) == Some(3);
    s3 := BindStmt(s, ctx, t);
    assert s3 == BindLive(s, ctx, Record(s, t));
    assert s3 == Terminate(Join(Record(s, t), 3));
    assert Join(t, 3).graph == t.graph[3 := LoopLabel([3])];
  }

  lemma ContinuedEnd(s3: State) returns (s4: State)
    requires s3.graph == [Unreachable, Unreachable, Start, LoopLabel([3]), BranchLabel([3]), BranchLabel([])]
    requires s3.flow == 0
    ensures s4 == Resume(JoinFrom(Join(s3, 3), 3, 2), 5) && s4.marks == s3.marks
    ensures s4.graph == [Unreachable, Unreachable, Start, LoopLabel([2, 3]), BranchLabel([3]), BranchLabel([])]
  {
    assert [2] + [3] == [2, 3];
    s4 := Resume(JoinFrom(Join(s3, 3), 3, 2), 5);
  }

  lemma ForBound(s: Stmt, start: State, st: State, s0: State, t: State, s3: State)
    requires s.For? && !Dead(start) && st == Record(s, start) && |st.graph| == 3
    requires s0 == NewLabels(st, LOOP).(flow := 3) && s.init.None?
    requires t == Resume(BindOptionalCondition(s.test, 4, 5, None, s0), 4)
    requires s3 == BindStmt(s.body, LoopContext(FUNCTION_CONTEXT, 5, 3), t)
    ensures BindStmt(s, FUNCTION_CONTEXT, start) == Resume(JoinFrom(Join(BindOptional(s.incr, None, s3), 3), 3, start.flow), 5)
  {
    hide BindDead, BindOptionalCondition, BindContainer;
    assert BindStmt(s, FUNCTION_CONTEXT, start) == BindLive(s, FUNCTION_CONTEXT, st);
    assert NewLabels(st, LOOP).(flow := 3) == s0;
  }

  lemma DeadExpr(e: Expr, st: State)
    requires Dead(st)
    ensures BindExpr(e, AsValue, None, st) == st
  {
  }

  const CONTINUED_CHOICES := [Yes, Yes, Yes, Yes, No]

  lemma ContinuedRun(s: Stmt) returns (m: Machine)
    requires IsContinued(s)
    ensures Body(Program([s]), CONTINUED_CHOICES) == Run(Reached(2), m) && AssignmentEvents(m.past) != []
  {
    var body := s.body;
    var m0 := Machine([], CONTINUED_CHOICES);
    OneRun(s, m0);
    var m1 := Tick(m0);
    assert m1.future == [Yes, Yes, Yes, No];
    var m2 := Tick(m1);
    assert m2.future == [Yes, Yes, No];
    assert Exec(body, {}, m1) == Run(Continued(None), m2);
    XRun(m2);
    var m3 := Eval(X, m2).machine;
    assert m2.future[2..] == [No];
    assert m3.future == [No];
    m := Tick(m3);
    assert Exec(body, {}, m3) == Run(Reached(2), m);
    ForStart(s, m0);
    hide Exec, Eval;
    assert ExecFor(s, {}, m3) == Run(Reached(2), m);
    assert ExecFor(s, {}, m1) == Run(Reached(2), m);
    SomeEvents(m.past);
  }

  lemma ForStart(s: Stmt, m: Machine)
    requires s.For? && s.init.None? && m.future != [] && m.future[0].Yes?
    ensures Exec(s, {}, m) == ExecFor(s, {}, Tick(m))
  {
    hide ExecFor;
  }

  lemma SomeEvents(past: seq<Event>)
    requires past == [Evaluated(Opaque(101), true), Assigned("x"), Evaluated(X, true)] || past == [Evaluated(Opaque(101), true), Assigned("x")]
    ensures AssignmentEvents(past) == ["x"]
  {
    var two := [Evaluated(Opaque(101), true), Assigned("x")];
    assert two[..1] == [Evaluated(Opaque(101), true)] && two[..1][..0] == [];
    assert AssignmentEvents(two[..1]) == [];
    assert AssignmentEvents(two) == ["x"];
    if |past| == 3 {
      assert past[..2] == two;
    }
  }

  lemma ContinuedNotSimple(s: Stmt)
    requires IsContinued(s)
    ensures !SimpleSeq([s], false)
  {
    var body := s.body;
    assert Escapes(body, {}) == {ContinueTo(None)};
    hide Escapes;
    assert LoopCatches(ContinueTo(None), {}) && ContinueTo(None) in Escapes(body, {});
    assert !NotContinued(body, {}) && !AssignsNothingIfAny(s.incr);
    assert !Simple(s, false, {});
  }

  lemma ContinuedParts(s: Stmt)
    requires IsContinued(s)
    ensures s.For? && s.init.None? && s.test.None? && s.incr == Some(X) && s.body == Continue(2, None) && s.id == 1
  {
  }

  lemma ContinuedPart(g: Graph)
    requires g == [Unreachable, Unreachable, Start, LoopLabel([2, 3]), BranchLabel([3]), BranchLabel([])]
    ensures Assignmentless(g, {2, 3})
  {
  }

  lemma ContinuedFirst(s: Stmt) returns (st: State, s0: State)
    requires IsContinued(s)
    ensures st == Record(s, START) && s0 == NewLabels(st, LOOP).(flow := 3) && |st.graph| == 3 && !Dead(START)
    ensures s0.graph == [Unreachable, Unreachable, Start, LoopLabel([]), BranchLabel([]), BranchLabel([])]
    ensures s0.marks == {FlowAt(1, 2)} && START.flow == 2
    ensures LoopContext(FUNCTION_CONTEXT, 5, 3).continueTarget == Some(3)
  {
    st := Record(s, START);
    s0 := NewLabels(st, LOOP).(flow := 3);
  }

  lemma DeadIncrementor(s: Stmt, st: State)
    requires IsContinued(s) && st.flow == 0 && |st.graph| > 0 && st.graph[0] == Unreachable
    ensures BindOptional(s.incr, None, st) == st
  {
    DeadExpr(X, st);
  }

  /** A `continue` skips the incrementor in the graph, but not when it runs. */
  lemma ContinuedFor(s: Stmt)
    requires IsContinued(s)
    ensures !SimpleSeq([s], false)
    ensures Unexplained(Program([s]), CONTINUED_CHOICES)
  {
    hide *;
    ContinuedNotSimple(s);
    ContinuedParts(s);
    var st, s0 := ContinuedFirst(s);
    OneBound(s, FUNCTION_CONTEXT, START);
    var t := ContinuedHead(s0);
    var s3 := ContinuedBody(s.body, LoopContext(FUNCTION_CONTEXT, 5, 3), t);
    DeadIncrementor(s, s3);
    var s1 := ContinuedEnd(s3);
    ForBound(s, START, st, s0, t, s3);
    ContinuedPart(s1.graph);
    var m := ContinuedRun(s);
    Missed([s], s1, {2, 3}, CONTINUED_CHOICES, 2, m);
  }

  // ----- a case test that assigns -----

  /** switch (1) { case x = 1: default: last; } */
  predicate IsAssigningTest(s: Stmt) {
    s == Switch(1, Opaque(104), [Clause(Some(X), []), Clause(None, [LAST])])
  }

  lemma TestParts(s: Stmt)
    requires IsAssigningTest(s)
    ensures s.Switch? && s.id == 1 && s.expr == Opaque(104) && |s.clauses| == 2
    ensures s.clauses[0] == Clause(Some(X), []) && s.clauses[1] == Clause(None, [LAST])
    ensures s.clauses[1..] == [s.clauses[1]] && s.clauses[1..][1..] == []
  {
  }

  lemma TestNotSimple(s: Stmt)
    requires IsAssigningTest(s)
    ensures !SimpleSeq([s], false)
  {
    TestParts(s);
    assert !AssignsNothingIfAny(s.clauses[0].test);
    assert !SimpleClauses(s.clauses, false);
    assert !Simple(s, false, {});
  }

  const TEST_POST: Graph := [Unreachable, Unreachable, Start, BranchLabel([])]

  lemma TestClause(c: Clause, ctx: Context, st: State) returns (r: State)
    requires c == Clause(Some(X), []) && ctx.exceptionTarget == None && st.graph == TEST_POST && st.flow == 2
    ensures r == BindClause(c, 2, ctx, st)
    ensures r.graph == TEST_POST + [FlowNode.Assignment("x", 2)] && r.flow == 2 && r.marks == st.marks
  {
    XBound(None, st.(flow := 2));
    hide BindExpr;
    assert BindEach([], ctx, Mutate(st, None, "x").(flow := 2)) == Mutate(st, None, "x").(flow := 2);
    r := BindClause(c, 2, ctx, st);
  }

  lemma TestGroup(s: Stmt, st: State) returns (r: State)
    requires s.Switch? && s.expr == Opaque(104)
    requires st.graph == TEST_POST + [FlowNode.Assignment("x", 2)] && st.flow == 2
    ensures r == EnterGroup(s, 0, 2, 2, UNREACHABLE_FLOW, st)
    ensures r.graph == TEST_POST + [FlowNode.Assignment("x", 2), BranchLabel([2])] && r.flow == 2 && r.marks == st.marks
    ensures |r.graph| > 2 && r.graph[2] == Start
  {
    assert [2] + [] == [2];
    var s0 := NewNode(st, BranchLabel([]));
    var s1 := JoinFrom(s0, 5, 2);
    assert s1.graph == TEST_POST + [FlowNode.Assignment("x", 2), BranchLabel([2])];
    r := EnterGroup(s, 0, 2, 2, UNREACHABLE_FLOW, st);
  }

  lemma DefaultClause(c: Clause, ctx: Context, st: State) returns (r: State)
    requires c == Clause(None, [LAST]) && !Dead(st)
    ensures r == BindClause(c, 2, ctx, st) && r == st.(marks := st.marks + {FlowAt(9, st.flow)})
  {
    LastBound(ctx, st);
    hide BindStmt;
    var s1 := BindStmt(LAST, ctx, st);
    assert [LAST][1..] == [];
    assert BindEach([LAST][1..], ctx, s1) == s1;
    r := BindClause(c, 2, ctx, st);
  }

  lemma TwoClauses(s: Stmt, ctx: Context, st: State, a: State, b: State, c: State)
    requires s.Switch? && |s.clauses| == 2 && s.clauses[0].body == [] && s.clauses[1].body != [] && st.flow == 2
    requires s.clauses[1..] == [s.clauses[1]] && s.clauses[1..][1..] == []
    requires a == BindClause(s.clauses[0], 2, ctx, st)
    requires b == EnterGroup(s, 0, 2, 2, UNREACHABLE_FLOW, a)
    requires c == BindClause(s.clauses[1], 2, ctx, b)
    ensures BindClauses(s, s.clauses, 0, 2, UNREACHABLE_FLOW, ctx, st) == c
  {
    hide BindClause, EnterGroup;
    assert BindClauses(s, s.clauses[1..][1..], 2, 2, c.flow, ctx, c) == c;
    assert BindClauses(s, s.clauses[1..], 0, 2, UNREACHABLE_FLOW, ctx, a) == c;
    assert st.(flow := 2) == st;
  }

  lemma SwitchBound(s: Stmt, st: State, s1: State, c: State) returns (r: State)
    requires s.Switch? && !Dead(st) && HasDefault(s.clauses) && s.expr == Opaque(104)
    requires s1 == NewNode(Record(s, st), BranchLabel([])) && !Dead(s1)
    requires c == BindClauses(s, s.clauses, 0, s1.flow, UNREACHABLE_FLOW, SwitchContext(FUNCTION_CONTEXT, |st.graph|), s1)
    ensures r == BindStmt(s, FUNCTION_CONTEXT, st)
    ensures r == Resume(Join(c, |st.graph|), |st.graph|)
  {
    hide BindClauses, BindDead, BindContainer, BindDeadClauses, AddAntecedent, FinishFlowLabel;
    assert BindExpr(s.expr, AsValue, None, s1) == s1;
    hide BindExpr;
    assert BindSwitch(s, FUNCTION_CONTEXT, Record(s, st)) == Resume(Join(c, |st.graph|), |st.graph|);
    hide BindSwitch;
    assert BindLive(s, FUNCTION_CONTEXT, Record(s, st)) == BindSwitch(s, FUNCTION_CONTEXT, Record(s, st));
    r := BindStmt(s, FUNCTION_CONTEXT, st);
  }

  const TEST_CHOICES := [Yes, Yes, Yes, Yes, No, No]

  lemma TestRun(s: Stmt) returns (m: Machine)
    requires IsAssigningTest(s)
    ensures Body(Program([s]), TEST_CHOICES) == Run(Reached(9), m) && AssignmentEvents(m.past) != []
  {
    TestParts(s);
    var m0 := Machine([], TEST_CHOICES);
    OneRun(s, m0);
    var m1 := Tick(m0);
    assert m1.future == [Yes, Yes, Yes, No, No];
    var m2 := Eval(s.expr, m1).machine;
    assert m2.past == [Evaluated(Opaque(104), true)] && m2.future == [Yes, Yes, No, No];
    XRun(m2);
    var m3 := Eval(X, m2).machine;
    assert m2.future[2..] == [No, No];
    var m4 := Tick(m3);
    assert m4.future == [No];
    assert SelectClause(s.clauses, 2, m4) == SelectRun(NoMatch, m4);
    assert SelectClause(s.clauses, 1, m4) == SelectRun(NoMatch, m4);
    assert SelectClause(s.clauses, 0, m2) == SelectRun(NoMatch, m4);
    SwitchStart(s, m0);
    hide Exec, Eval, SelectClause;
    var m5 := Emit(m4, Selected(1, Some(1)));
    assert HasDefault(s.clauses) && DefaultIndex(s.clauses) == 1 by { DefaultSecond(s.clauses); }
    m := Tick(m5);
    OneRun(LAST, m5);
    assert Exec(LAST, {}, m5) == Run(Reached(9), m) by { LastReached(m5); }
    assert ExecClauses(s.clauses, 1, m5) == Run(Reached(9), m);
    assert ExecSwitch(s, m2) == Run(Reached(9), m);
    assert m.past == [Evaluated(Opaque(104), true)] + [Evaluated(Opaque(101), true), Assigned("x")] + [Evaluated(X, true)] + [Selected(1, Some(1))];
    HasAssigned(m.past, 2);
  }

  lemma LastReached(m: Machine)
    requires m.future == [No]
    ensures Exec(LAST, {}, m) == Run(Reached(9), Tick(m))
  {
  }

  lemma DefaultSecond(clauses: seq<Clause>)
    requires |clauses| == 2 && clauses[0].test.Some? && clauses[1].test.None?
    ensures HasDefault(clauses) && DefaultIndex(clauses) == 1
  {
    assert clauses[1] in clauses;
    assert clauses[1..][0] == clauses[1];
  }

  lemma SwitchStart(s: Stmt, m: Machine)
    requires s.Switch? && m.future != [] && m.future[0].Yes? && Eval(s.expr, Tick(m)).outcome.Value?
    ensures Exec(s, {}, m) == ExecSwitch(s, Eval(s.expr, Tick(m)).machine)
  {
    hide ExecSwitch, Eval;
  }

  lemma {:induction false} HasAssigned(past: seq<Event>, i: nat)
    requires i < |past| && past[i].Assigned?
    ensures AssignmentEvents(past) != []
    decreases past
  {
    if i < |past| - 1 {
      HasAssigned(past[..|past| - 1], i);
    }
  }

  lemma TestFirst(s: Stmt) returns (s1: State, ctx: Context)
    requires IsAssigningTest(s)
    ensures s1 == NewNode(Record(s, START), BranchLabel([])) && s1.graph == TEST_POST && s1.flow == 2
    ensures s1.marks == {FlowAt(1, 2)}
    ensures !Dead(START) && !Dead(s1) && HasDefault(s.clauses) && |START.graph| == 3
    ensures ctx == SwitchContext(FUNCTION_CONTEXT, 3) && ctx.exceptionTarget == None
  {
    TestParts(s);
    assert s.clauses[1] in s.clauses;
    s1 := NewNode(Record(s, START), BranchLabel([]));
    ctx := SwitchContext(FUNCTION_CONTEXT, 3);
  }

  lemma TestLast(c: State) returns (r: State)
    requires c.graph == TEST_POST + [FlowNode.Assignment("x", 2), BranchLabel([2])] && c.flow == 2
    requires c.marks == {FlowAt(1, 2), FlowAt(9, 2)}
    ensures r == Resume(Join(c, 3), 3) && r.marks == c.marks && Assignmentless(r.graph, {2})
  {
    r := Resume(Join(c, 3), 3);
  }

  lemma TestMarks(a: State, b: State, c: State)
    requires a.marks == {FlowAt(1, 2)} && b.flow == 2 && b.marks == a.marks
    requires c == b.(marks := b.marks + {FlowAt(9, b.flow)})
    requires |b.graph| > 2 && b.graph[2] == Start
    ensures c.marks == {FlowAt(1, 2), FlowAt(9, 2)} && c.flow == 2 && c.graph == b.graph
  {
  }

  lemma StartAlive(st: State)
    requires st.flow == 2 && |st.graph| > 2 && st.graph[2] == Start
    ensures !Dead(st)
  {
  }

  /** The flow after a case test is dropped. */
  lemma AssigningTest(s: Stmt)
    requires IsAssigningTest(s)
    ensures !SimpleSeq([s], false)
    ensures Unexplained(Program([s]), TEST_CHOICES)
  {
    hide *;
    TestNotSimple(s);
    TestParts(s);
    var s1, ctx := TestFirst(s);
    OneBound(s, FUNCTION_CONTEXT, START);
    var a := TestClause(s.clauses[0], ctx, s1);
    var b := TestGroup(s, a);
    StartAlive(b);
    var c := DefaultClause(s.clauses[1], ctx, b);
    TwoClauses(s, ctx, s1, a, b, c);
    var r := SwitchBound(s, START, s1, c);
    TestMarks(a, b, c);
    var r' := TestLast(c);
    var m := TestRun(s);
    Missed([s], r, {2}, TEST_CHOICES, 9, m);
  }

  // ----- a break out of a try statement that has a finally block -----

  /** L: try { break L; } finally { x = 1; } */
  predicate IsJumpingTry(s: Stmt) {
    s == Labeled(1, "L", Try(2, [Break(3, Some("L"))], NoBlock, SomeBlock([ExprStmt(4, X)])))
  }

  lemma JumpParts(s: Stmt)
    requires IsJumpingTry(s)
    ensures s.Labeled? && s.id == 1 && s.name == "L" && s.body.Try? && s.body.id == 2
    ensures s.body.block == [Break(3, Some("L"))] && s.body.handler == NoBlock
    ensures s.body.finalizer == SomeBlock([ExprStmt(4, X)])
  {
  }

  lemma JumpNotSimple(s: Stmt)
    requires IsJumpingTry(s)
    ensures !SimpleSeq([s, LAST], false)
  {
    JumpParts(s);
    var t, j := s.body, Break(3, Some("L"));
    assert t.block[0] == j && Escapes(j, {}) == {BreakTo(Some("L"))};
    assert BreakTo(Some("L")) in EscapesSeq(t.block);
    hide EscapesSeq;
    assert BreakTo(Some("L")) in Escapes(t, {});
    assert !Simple(t, false, {"L"});
    assert {} + {"L"} == {"L"};
    assert !Simple(s, false, {});
  }

  const JUMP_LABELS: Graph := [Unreachable, Unreachable, Start, BranchLabel([]), BranchLabel([]), BranchLabel([]), BranchLabel([2])]
  const JUMP_BLOCK: Graph := [Unreachable, Unreachable, Start, BranchLabel([2]), BranchLabel([]), BranchLabel([]), BranchLabel([2])]

  lemma JumpBlock(j: Stmt, ctx: Context, st: State) returns (r: State)
    requires j == Break(3, Some("L")) && BreakTarget(ctx, Some("L")) == Some(3)
    requires st.graph == JUMP_LABELS && st.flow == 2
    ensures r == BindBlock([j], ctx, st)
    ensures r.graph == JUMP_BLOCK && r.flow == 0 && r.marks == st.marks + {FlowAt(3, 2)}
  {
    OneBound(j, ctx, st);
    assert [2] + [] == [2];
    hide BindBlock, BindContainer, BindDead;
    assert Join(Record(j, st), 3).graph == JUMP_BLOCK;
    assert BindLive(j, ctx, Record(j, st)) == Terminate(Join(Record(j, st), 3));
    r := BindStmt(j, ctx, st);
  }

  lemma JumpGuarded(t: Stmt, ctx: Context, st: State) returns (r: State)
    requires t.Try? && t.block == [Break(3, Some("L"))] && t.handler == NoBlock && t.finalizer.SomeBlock?
    requires BreakTarget(ctx, Some("L")) == Some(3)
    requires st.graph == TEST_POST && st.flow == 2
    ensures BindGuarded(t, ctx, st) == Guarded(r, 6)
    ensures r.graph == JUMP_BLOCK && r.flow == 0 && r.marks == st.marks + {FlowAt(3, 2)}
  {
    assert [2] + [] == [2];
    var s0 := Join(NewLabels(st, BRANCHES), 6);
    assert s0.graph == JUMP_LABELS;
    var inner := TryContext(t, ctx, 5, 6);
    assert BreakTarget(inner, Some("L")) == Some(3);
    r := JumpBlock(t.block[0], inner, s0);
    hide BindBlock;
    assert Join(r, 4) == r;
    assert BindTryBlock(t, ctx, st) == r;
  }

  lemma XStatement(ctx: Context, st: State) returns (r: State)
    requires ctx.exceptionTarget.None? && !Dead(st)
    ensures r == BindBlock([ExprStmt(4, X)], ctx, st)
    ensures r.graph == st.graph + [FlowNode.Assignment("x", st.flow)] && r.flow == |st.graph|
    ensures r.marks == st.marks + {FlowAt(4, st.flow)}
  {
    OneBound(ExprStmt(4, X), ctx, st);
    XBound(None, Record(ExprStmt(4, X), st));
    hide BindBlock, BindExpr;
    r := BindStmt(ExprStmt(4, X), ctx, st);
  }

  lemma JumpTry(t: Stmt, ctx: Context, st: State) returns (r: State)
    requires t.Try? && t.block == [Break(3, Some("L"))] && t.handler == NoBlock
    requires t.finalizer == SomeBlock([ExprStmt(4, X)])
    requires BreakTarget(ctx, Some("L")) == Some(3) && ctx.exceptionTarget.None? && ctx.returnTarget.None?
    requires st.graph == TEST_POST && st.flow == 2
    ensures r == BindTry(t, ctx, st)
    ensures r.graph == JUMP_BLOCK + [FinallyLabel([2]), FlowNode.Assignment("x", 7)] && r.flow == 0
    ensures r.marks == st.marks + {FlowAt(3, 2)} + {FlowAt(4, 7)}
  {
    var g := JumpGuarded(t, ctx, st);
    assert [] + ([2] + []) == [2];
    var s2 := NewNode(SealParts(g, 4, 6, 5), FinallyLabel([2])).(flow := 7);
    assert s2.graph[7] == FinallyLabel([2]);
    var s3 := XStatement(ctx, s2);
    hide BindBlock, BindGuarded;
    r := BindTry(t, ctx, st);
    assert r == LeaveFinally(ctx, s3, 7, [], [2], []);
  }

  lemma JumpLabeled(s: Stmt) returns (r: State)
    requires IsJumpingTry(s)
    ensures r == BindStmt(s, FUNCTION_CONTEXT, START)
    ensures r.graph == JUMP_BLOCK + [FinallyLabel([2]), FlowNode.Assignment("x", 7)] && r.flow == 2
    ensures r.marks == {FlowAt(1, 2), FlowAt(2, 2), FlowAt(3, 2), FlowAt(4, 7)}
  {
    JumpParts(s);
    var ctx := LabelContext(FUNCTION_CONTEXT, "L", 3);
    var st := NewNode(Record(s, START), BranchLabel([]));
    assert BreakTarget(Inner(ctx), Some("L")) == Some(3);
    var b := JumpTry(s.body, Inner(ctx), Record(s.body, st));
    assert b == BindStmt(s.body, ctx, st) by { TryBound(s.body, ctx, st); }
    r := LabeledBound(s, b);
  }

  lemma TryBound(t: Stmt, ctx: Context, st: State)
    requires t.Try? && !Dead(st)
    ensures BindStmt(t, ctx, st) == BindTry(t, Inner(ctx), Record(t, st))
  {
    hide BindTry;
  }

  lemma LabeledBound(s: Stmt, b: State) returns (r: State)
    requires s.Labeled? && s.name == "L"
    requires b == BindStmt(s.body, LabelContext(FUNCTION_CONTEXT, "L", 3), NewNode(Record(s, START), BranchLabel([])))
    requires b.graph == JUMP_BLOCK + [FinallyLabel([2]), FlowNode.Assignment("x", 7)] && b.flow == 0
    ensures r == BindStmt(s, FUNCTION_CONTEXT, START) && r.graph == b.graph && r.flow == 2 && r.marks == b.marks
  {
    hide BindDead, BindContainer;
    assert !Dead(START) && |START.graph| == 3;
    assert BindLive(s, FUNCTION_CONTEXT, Record(s, START)) == Resume(Join(b, 3), 3);
    r := BindStmt(s, FUNCTION_CONTEXT, START);
  }

  const JUMP_CHOICES := [Yes, Yes, Yes, Yes, Yes, Yes, No]

  lemma JumpRun(s: Stmt) returns (m: Machine)
    requires IsJumpingTry(s)
    ensures Body(Program([s, LAST]), JUMP_CHOICES) == Run(Reached(9), m) && AssignmentEvents(m.past) != []
  {
    JumpParts(s);
    var m0 := Machine([], JUMP_CHOICES);
    TwoRun(s, LAST, m0);
    var m1 := Tick(m0);
    var m2 := Tick(m1);
    var m3 := Tick(m2);
    assert m2.future == [Yes, Yes, Yes, Yes, No] && m3.future == [Yes, Yes, Yes, No];
    OneRun(s.body.block[0], m2);
    assert Exec(s.body.block[0], {}, m2) == Run(Broke(Some("L")), m3);
    assert ExecGuarded(s.body, m2) == Run(Broke(Some("L")), m3);
    var m4 := XStatementRun(m3);
    hide ExecSeq;
    assert ExecTry(s.body, m2) == Run(Broke(Some("L")), m4);
    hide ExecTry;
    assert Exec(s.body, {} + {"L"}, m1) == Run(Broke(Some("L")), m4);
    assert Exec(s, {}, m0) == Run(Completed, m4) by { LabeledRun(s, m0, m4); }
    LastReached(m4);
    m := Tick(m4);
    HasAssigned(m.past, 1);
  }

  lemma XStatementRun(m: Machine) returns (m': Machine)
    requires m == Machine([], [Yes, Yes, Yes, No])
    ensures ExecSeq([ExprStmt(4, X)], m) == Run(Completed, m')
    ensures m'.future == [No] && |m'.past| == 3 && m'.past[1] == Assigned("x")
  {
    OneRun(ExprStmt(4, X), m);
    XRun(Tick(m));
    m' := Eval(X, Tick(m)).machine;
    assert Tick(m).future[2..] == [No];
    hide Eval;
    assert Exec(ExprStmt(4, X), {}, m) == Run(Completed, m');
  }

  lemma LabeledRun(s: Stmt, m: Machine, m': Machine)
    requires s.Labeled? && m.future != [] && m.future[0].Yes?
    requires Exec(s.body, {} + {s.name}, Tick(m)) == Run(Broke(Some(s.name)), m')
    ensures Exec(s, {}, m) == Run(Completed, m')
  {
  }

  lemma LastPart(r: State, r': State, marks: set<Mark>)
    requires r.flow == 2 && |r.graph| > 2 && r.graph[2] == Start && r' == r.(marks := r.marks + {FlowAt(9, r.flow)})
    requires r.marks == marks && forall f :: FlowAt(9, f) !in marks
    ensures Assignmentless(r'.graph, {2}) && forall f :: FlowAt(9, f) in r'.marks ==> f in {2}
  {
  }

  /** A break jumps past the finally block in the graph, but not when it runs. */
  lemma JumpingTry(s: Stmt)
    requires IsJumpingTry(s)
    ensures !SimpleSeq([s, LAST], false)
    ensures Unexplained(Program([s, LAST]), JUMP_CHOICES)
  {
    hide *;
    JumpNotSimple(s);
    JumpParts(s);
    var r := JumpLabeled(s);
    JumpGraph(r.graph);
    StartAlive(r);
    StartState();
    TwoBound(s, LAST, FUNCTION_CONTEXT, START);
    LastBound(FUNCTION_CONTEXT, r);
    var r' := BindStmt(LAST, FUNCTION_CONTEXT, r);
    LastPart(r, r', {FlowAt(1, 2), FlowAt(2, 2), FlowAt(3, 2), FlowAt(4, 7)});
    var m := JumpRun(s);
    Missed([s, LAST], r', {2}, JUMP_CHOICES, 9, m);
  }

  lemma JumpGraph(g: Graph)
    requires g == JUMP_BLOCK + [FinallyLabel([2]), FlowNode.Assignment("x", 7)]
    ensures |g| > 2 && g[2] == Start
  {
  }

  lemma StartState()
    ensures !Dead(START) && !LAST.Function?
  {
  }

  // ----- a try statement inside another -----

  /** try { try { x = 1; } catch { throw 1; } } catch { last; } */
  predicate IsNestedTry(s: Stmt) {
    s == Try(1, [Try(2, [ExprStmt(4, X)], SomeBlock([Throw(5, Opaque(105))]), NoBlock)], SomeBlock([LAST]), NoBlock)
  }

  lemma NestedParts(s: Stmt)
    requires IsNestedTry(s)
    ensures s.Try? && s.id == 1 && |s.block| == 1 && s.block == [s.block[0]] && s.handler == SomeBlock([LAST])
    ensures s.finalizer == NoBlock
    ensures var t := s.block[0];
            t.Try? && t.id == 2 && t.block == [ExprStmt(4, X)] && t.handler == SomeBlock([Throw(5, Opaque(105))]) && t.finalizer == NoBlock
  {
  }

  lemma NestedNotSimple(s: Stmt)
    requires IsNestedTry(s)
    ensures !SimpleSeq([s], false)
  {
    NestedParts(s);
    assert !Simple(s.block[0], true, {});
    assert !SimpleSeq(s.block, true);
    assert !Simple(s, false, {});
  }

  const OUTER_LABELS: Graph := [Unreachable, Unreachable, Start, BranchLabel([]), BranchLabel([]), BranchLabel([2])]
  const INNER_LABELS: Graph := OUTER_LABELS + [BranchLabel([]), BranchLabel([]), BranchLabel([2])]
  const INNER_BLOCK: Graph := OUTER_LABELS + [BranchLabel([]), BranchLabel([]), BranchLabel([9, 2]), FlowNode.Assignment("x", 2)]
  const INNER_DONE: Graph := OUTER_LABELS + [BranchLabel([9]), BranchLabel([]), BranchLabel([9, 2]), FlowNode.Assignment("x", 2)]

  lemma InnerBlock(t: Stmt, ctx: Context, st: State) returns (r: State)
    requires t.Try? && t.block == [ExprStmt(4, X)] && t.finalizer == NoBlock && st.graph == OUTER_LABELS && st.flow == 2
    ensures r == BindTryBlock(t, ctx, st)
    ensures r.graph == INNER_DONE && r.marks == st.marks + {FlowAt(4, 2)}
  {
    var inner := TryContext(t, ctx, 7, 8);
    var s0 := Join(NewLabels(st, BRANCHES), 8);
    assert [2] + [] == [2] && [9] + [2] == [9, 2] && [9] + [] == [9];
    assert s0.graph == INNER_LABELS;
    var e := ExprStmt(4, X);
    OneBound(e, inner, s0);
    XBound(Some(8), Record(e, s0));
    hide BindBlock, BindExpr;
    var m := Mutate(Record(e, s0), Some(8), "x");
    assert m.graph == INNER_BLOCK;
    var s1 := BindStmt(e, inner, s0);
    assert s1 == m;
    hide BindStmt;
    assert Join(s1, 6).graph == INNER_DONE;
    r := BindTryBlock(t, ctx, st);
  }

  lemma InnerTry(t: Stmt, ctx: Context, st: State) returns (r: State)
    requires t.Try? && t.block == [ExprStmt(4, X)] && t.handler == SomeBlock([Throw(5, Opaque(105))])
    requires t.finalizer == NoBlock
    requires st.graph == OUTER_LABELS && st.flow == 2
    ensures r == BindTry(t, ctx, st)
    ensures r.graph == INNER_DONE + [BranchLabel([8])] && r.flow == 9
    ensures r.marks == st.marks + {FlowAt(4, 2)} + {FlowAt(5, 8)}
  {
    var s1 := InnerBlock(t, ctx, st);
    var c0 := Resume(s1, 8);
    assert c0.flow == 8;
    var c1 := Join(NewNode(c0, BranchLabel([])), 10);
    assert [8] + [] == [8];
    assert c1.graph == INNER_DONE + [BranchLabel([8])];
    var throws := Throw(5, Opaque(105));
    var inner := TryContext(t, ctx, 7, 10);
    OneBound(throws, inner, c1);
    hide BindBlock, BindTryBlock;
    var c2 := BindStmt(throws, inner, c1);
    assert c2.graph == c1.graph && c2.flow == 0 && c2.marks == c1.marks + {FlowAt(5, 8)};
    hide BindStmt;
    assert Join(c2, 6) == c2;
    assert BindGuarded(t, ctx, st) == Guarded(c2, 10);
    hide BindGuarded;
    r := BindTry(t, ctx, st);
    assert r == Resume(c2, 6);
  }

  lemma OuterBlock(s: Stmt, st: State) returns (r: State)
    requires IsNestedTry(s) && st.graph == START.graph && st.flow == 2
    ensures r == BindTryBlock(s, FUNCTION_CONTEXT, st)
    ensures |r.graph| == 11 && r.graph[5] == BranchLabel([2]) && r.graph[2] == Start
    ensures r.marks == st.marks + {FlowAt(2, 2), FlowAt(4, 2), FlowAt(5, 8)}
  {
    NestedParts(s);
    var t := s.block[0];
    var inner := TryContext(s, FUNCTION_CONTEXT, 4, 5);
    var s0 := Join(NewLabels(st, BRANCHES), 5);
    assert [2] + [] == [2];
    assert s0.graph == OUTER_LABELS;
    OneBound(t, inner, s0);
    TryBound(t, inner, s0);
    var r0 := InnerTry(t, Inner(inner), Record(t, s0));
    hide BindBlock, BindStmt, BindTry;
    assert BindBlock(s.block, inner, s0) == r0;
    r := BindTryBlock(s, FUNCTION_CONTEXT, st);
    assert r == Join(r0, 3);
  }

  lemma OuterTry(s: Stmt, st: State, s1: State) returns (r: State)
    requires IsNestedTry(s) && |st.graph| == 3 && s1 == BindTryBlock(s, FUNCTION_CONTEXT, st)
    requires |s1.graph| == 11 && s1.graph[5] == BranchLabel([2]) && s1.graph[2] == Start
    ensures r == BindTry(s, FUNCTION_CONTEXT, st)
    ensures |r.graph| > 2 && r.graph[2] == Start && r.marks == s1.marks + {FlowAt(9, 2)}
  {
    NestedParts(s);
    var c0 := Resume(s1, 5);
    assert c0.flow == 2;
    var c1 := Join(NewNode(c0, BranchLabel([])), 11);
    assert c1.graph[2] == Start;
    var inner := TryContext(s, FUNCTION_CONTEXT, 4, 11);
    OneBound(LAST, inner, c1);
    LastBound(inner, c1);
    hide BindBlock, BindTryBlock, BindStmt;
    var c2 := c1.(marks := c1.marks + {FlowAt(9, 2)});
    assert BindBlock(s.handler.statements, inner, c1) == c2;
    assert BindGuarded(s, FUNCTION_CONTEXT, st) == Guarded(Join(c2, 3), 11);
    hide BindGuarded;
    r := BindTry(s, FUNCTION_CONTEXT, st);
    assert r == Resume(Join(c2, 3), 3);
  }

  const NESTED_CHOICES := [Yes, Yes, Yes, Yes, Raise, Raise, No]

  lemma NestedRun(s: Stmt) returns (m: Machine)
    requires IsNestedTry(s)
    ensures Body(Program([s]), NESTED_CHOICES) == Run(Reached(9), m) && AssignmentEvents(m.past) != []
  {
    NestedParts(s);
    var t := s.block[0];
    var m0 := Machine([], NESTED_CHOICES);
    OneRun(s, m0);
    var m1 := Tick(m0);
    var m2 := Tick(m1);
    assert m2.future == [Yes, Yes, Raise, Raise, No];
    var m3 := XStatementRaises(m2);
    var m4 := Tick(m3);
    OneRun(Throw(5, Opaque(105)), m3);
    assert Exec(Throw(5, Opaque(105)), {}, m3) == Run(Raised, m4);
    hide ExecSeq;
    assert ExecGuarded(t, m2) == Run(Raised, m4);
    assert ExecTry(t, m2) == Run(Raised, m4);
    assert Exec(t, {}, m1) == Run(Raised, m4) by { TryRun(t, m1); }
    OneRun(t, m1);
    OneRun(LAST, m4);
    LastReached(m4);
    m := Tick(m4);
    assert ExecGuarded(s, m1) == Run(Reached(9), m);
    assert ExecTry(s, m1) == Run(Reached(9), m);
    assert Exec(s, {}, m0) == Run(Reached(9), m) by { TryRun(s, m0); }
    HasAssigned(m.past, 1);
  }

  lemma TryRun(s: Stmt, m: Machine)
    requires s.Try? && m.future != [] && m.future[0].Yes?
    ensures Exec(s, {}, m) == ExecTry(s, Tick(m))
  {
    hide ExecTry;
  }

  lemma XStatementRaises(m: Machine) returns (m': Machine)
    requires m == Machine([], [Yes, Yes, Raise, Raise, No])
    ensures ExecSeq([ExprStmt(4, X)], m) == Run(Raised, m')
    ensures m'.future == [Raise, No] && |m'.past| == 2 && m'.past[1] == Assigned("x")
  {
    OneRun(ExprStmt(4, X), m);
    XRun(Tick(m));
    m' := Eval(X, Tick(m)).machine;
    assert Tick(m).future[2..] == [Raise, No];
    hide Eval;
    assert Exec(ExprStmt(4, X), {}, m) == Run(Raised, m');
  }

  lemma NestedMarks(s: Stmt, st: State, marks: set<Mark>)
    requires st == Record(s, START) && s.Try? && s.id == 1
    requires marks == st.marks + {FlowAt(2, 2), FlowAt(4, 2), FlowAt(5, 8)} + {FlowAt(9, 2)}
    ensures forall f :: FlowAt(9, f) in marks ==> f in {2}
  {
  }

  lemma OnlyStart(g: Graph)
    requires |g| > 2 && g[2] == Start
    ensures Assignmentless(g, {2})
  {
  }

  lemma NestedFirst(s: Stmt) returns (st: State)
    requires s.Try?
    ensures st == Record(s, START) && st.graph == START.graph && st.flow == 2 && |st.graph| == 3
    ensures Inner(FUNCTION_CONTEXT) == FUNCTION_CONTEXT
  {
    st := Record(s, START);
  }

  /** The assignments of an inner try block are not kept for the outer catch clause. */
  lemma NestedTry(s: Stmt)
    requires IsNestedTry(s)
    ensures !SimpleSeq([s], false)
    ensures Unexplained(Program([s]), NESTED_CHOICES)
  {
    hide *;
    NestedNotSimple(s);
    NestedParts(s);
    StartState();
    OneBound(s, FUNCTION_CONTEXT, START);
    TryBound(s, FUNCTION_CONTEXT, START);
    var st := NestedFirst(s);
    var s1 := OuterBlock(s, st);
    var r := OuterTry(s, st, s1);
    NestedMarks(s, st, r.marks);
    OnlyStart(r.graph);
    var m := NestedRun(s);
    Missed([s], r, {2}, NESTED_CHOICES, 9, m);
  }
}
