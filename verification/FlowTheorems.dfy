/** The theorems about the flow graph of a function. */
module FlowTheorems {
  import opened Wrappers
  import opened Syntax
  import opened FlowGraph
  import opened FlowBuilder
  import opened FlowGrowth
  import opened Execution
  import opened Walks
  import opened Limits
  import opened ExprSoundness
  import opened StmtSoundness

  /** The builder state at the start of a file. */
  const INITIAL := State([Unreachable, Unreachable], UNREACHABLE_FLOW, false, false, {}, {})

  /** A run of the body of a function. */
  function Body(s: Stmt, choices: seq<Choice>): Run
    requires s.Function?
  {
    ExecSeq(s.statements, Machine([], choices))
  }

  ghost predicate Ended(s: Stmt, w: World, out: State, past: seq<Event>)
    requires s.Function?
  {
    && HasImplicitReturn(s.id) in out.marks
    && exists f :: EndFlow(s.id, f) in out.marks && Explains(w, f, past)
  }

  ghost predicate ReturnedAt(s: Stmt, w: World, out: State, past: seq<Event>)
    requires s.Function?
  {
    exists f :: ReturnFlow(s.id, f) in out.marks && Explains(w, f, past)
  }

  /** What binding a function promises about its runs, whatever was bound before it (`st`) and is bound
      after it (`g`). */
  ghost predicate Followed(s: Stmt, w: World, out: State, r: Run)
    requires s.Function?
  {
    && (r.outcome.Reached? ==> Marked(w, out, r.outcome.id, r.machine.past))
    && (r.outcome.Completed? ==> Ended(s, w, out, r.machine.past))
    && (s.isConstructor && (r.outcome.Completed? || r.outcome.Returned?) ==> ReturnedAt(s, w, out, r.machine.past))
  }

  lemma BodyStages(s: Stmt, st: State) returns (s0: State, s1: State)
    requires s.Function? && Valid(st)
    ensures s0 == NewLabels(st, if s.isConstructor then [Start, BranchLabel([])] else [Start]).(flow := |st.graph|, explicitReturn := false)
    ensures s1 == BindBlock(s.statements, ContainerContext(s, |st.graph|), s0)
    ensures BindContainer(s, st) == LeaveContainer(s, st, s1)
    ensures Valid(s0) && Earlier(st, s0) && Earlier(s0, s1) && s0.graph[|st.graph|] == Start
    ensures Earlier(s1, BindContainer(s, st))
  {
    hide Extends, Valid, BindBlock, LeaveContainer;
    var start := |st.graph|;
    var created := if s.isConstructor then [Start, BranchLabel([])] else [Start];
    s0 := NewLabels(st, created).(flow := start, explicitReturn := false);
    s1 := BindBlock(s.statements, ContainerContext(s, start), s0);
    AppendEarlier(st, s0, created);
    BlockEarlier(s.statements, ContainerContext(s, start), s0);
    ExtendsLength(s0.graph, s1.graph);
    LeaveEarlier(s, st, s1);
  }

  lemma LeaveEarlier(s: Stmt, before: State, st: State)
    requires s.Function? && Valid(before) && Valid(st) && |before.graph| <= |st.graph|
    ensures Earlier(st, LeaveContainer(s, before, st))
  {
    hide Extends, AddAntecedent, FinishFlowLabel;
    var s1 := if Dead(st) then st
              else st.(marks := st.marks + {HasImplicitReturn(s.id), EndFlow(s.id, st.flow)}
                                + (if st.explicitReturn then {HasExplicitReturn(s.id)} else {}));
    MoveEarlier(st, s1);
    var s2 := s1;
    var target := |before.graph| + 1;
    if s.isConstructor {
      JoinEarlier(s1, target);
      ResumeEarlier(Join(s1, target), target);
      var r := Resume(Join(s1, target), target);
      s2 := r.(marks := r.marks + {ReturnFlow(s.id, r.flow)});
      MoveEarlier(r, s2);
      EarlierTrans(s1, Join(s1, target), r);
      EarlierTrans(s1, r, s2);
    } else {
      EarlierRefl(s1);
    }
    EarlierTrans(st, s1, s2);
    ExtendsLength(st.graph, s2.graph);
    MoveEarlier(s2, LeaveContainer(s, before, st));
    EarlierTrans(st, s2, LeaveContainer(s, before, st));
  }

  /** Every run of a function is followed by its flow graph. */
  lemma FunctionFollowed(s: Stmt, st: State, w: World, choices: seq<Choice>)
    requires s.Function? && Valid(st) && Extends(BindContainer(s, st).graph, w.graph) && w.start == |st.graph|
    requires w.precise ==> SimpleSeq(s.statements, false)
    ensures Followed(s, w, BindContainer(s, st), Body(s, choices))
  {
    hide Extends, Valid, Good, Into, Covered, BindBlock, ExecSeq, LeaveContainer, BindContainer, Settled, Explains;
    var out := BindContainer(s, st);
    var s0, s1 := BodyStages(s, st);
    var start, m := |st.graph|, Machine([], choices);
    var v := View(w, w.graph, None, map[]);
    ExtendsTrans(s1.graph, out.graph, w.graph);
    ExtendsTrans(s0.graph, s1.graph, w.graph);
    ExtendsRefl(w.graph);
    NodeKept(s0.graph, w.graph, start);
    GoodStart(w, map[]);
    NothingCovered(v, m.past);
    BlockSound(s.statements, ContainerContext(s, start), s0, v, true, m);
    if s.isConstructor {
      JoinKept(s0.graph, s1.graph, start + 1);
    }
    BodyFollowed(s, st, s1, v, Body(s, choices));
  }

  lemma NothingCovered(v: View, past: seq<Event>)
    requires v.exceptionTarget.None?
    ensures Covered(v, past)
  {
  }

  lemma BodyFollowed(s: Stmt, before: State, st: State, v: View, r: Run)
    requires s.Function? && Valid(st)
    requires s.isConstructor ==> IsJoin(st.graph, |before.graph| + 1)
    requires Extends(LeaveContainer(s, before, st).graph, v.w.graph) && Extends(st.graph, v.w.graph) && v.fixed == map[]
    requires Settled(v, ContainerContext(s, |before.graph|), true, st, r)
    ensures Followed(s, v.w, LeaveContainer(s, before, st), r)
  {
    hide Extends, Good, Into, Covered, AddAntecedent, FinishFlowLabel, Explains;
    var out := LeaveContainer(s, before, st);
    var past, target := r.machine.past, |before.graph| + 1;
    if r.outcome.Reached? {
      assert st.marks <= out.marks;
    } else if r.outcome.Completed? {
      AliveEarlierAt(v, st, map[], past);
      assert EndFlow(s.id, st.flow) in out.marks;
      GoodExplains(v.w, st.flow, map[], past);
      if s.isConstructor {
        var s1 := st.(marks := st.marks + {HasImplicitReturn(s.id), EndFlow(s.id, st.flow)}
                                + (if st.explicitReturn then {HasExplicitReturn(s.id)} else {}));
        IntoAdded(v.w, st.graph, target, st.flow, map[], past);
        IntoReturned(v, Join(s1, target).graph, Some(target), true, past);
        ReturnFinished(v, s1, target, past);
        assert ReturnFlow(s.id, Resume(Join(s1, target), target).flow) in out.marks;
      }
    } else if r.outcome.Returned? && s.isConstructor {
      var s1 := if Dead(st) then st
              else st.(marks := st.marks + {HasImplicitReturn(s.id), EndFlow(s.id, st.flow)}
                                + (if st.explicitReturn then {HasExplicitReturn(s.id)} else {}));
      JoinFromGrows(s1, target, s1.flow);
      assert Extends(st.graph, Join(s1, target).graph) by { GrowsExtends({target}, s1, Join(s1, target)); }
      AntecedentsKept(st.graph, Join(s1, target).graph, target);
      ReturnFinished(v, s1, target, past);
      assert ReturnFlow(s.id, Resume(Join(s1, target), target).flow) in out.marks;
    }
  }

  /** The flow that returns: one of the flows that joined at the return target accounts for the run. */
  lemma ReturnFinished(v: View, st: State, target: FlowId, past: seq<Event>)
    requires Valid(st) && IsJoin(st.graph, target) && Extends(Join(st, target).graph, v.w.graph)
    requires ReturnedInto(v, Join(st, target).graph, Some(target), true, past)
    ensures Explains(v.w, Resume(Join(st, target), target).flow, past)
  {
    hide Extends;
    var g := Join(st, target).graph;
    JoinFromGrows(st, target, st.flow);
    GrowsExtends({target}, st, Join(st, target));
    JoinKept(st.graph, g, target);
    var a :| a in Antecedents(g, target) && Explains(v.w, a, past);
    JoinKept(g, v.w.graph, target);
    AntecedentsKept(g, v.w.graph, target);
    if |Antecedents(g, target)| > 1 {
      if v.w.precise {
        var steps, path := WalkFurther(v.w, target, a, map[], past);
        assert steps + StepsAt(v.w.graph, target) == steps;
      }
    } else {
      assert a == Antecedents(g, target)[0];
    }
  }

  // ----- the main theorems -----

  lemma InitialValid()
    ensures Valid(INITIAL)
  {
  }

  /** Trace soundness. If a run of a simple function reaches a statement, a flow is recorded for the
      statement from which a backward walk leads to the start of the function; the assignments on the
      walk are, in order, exactly those of the run, and every condition and clause on it held. */
  lemma TraceSoundness(s: Stmt, st: State, g: Graph, choices: seq<Choice>) returns (f: FlowId, path: seq<FlowId>)
    requires s.Function? && Valid(st) && Extends(BindContainer(s, st).graph, g) && SimpleSeq(s.statements, false)
    requires Body(s, choices).outcome.Reached?
    ensures var r := Body(s, choices);
            && FlowAt(r.outcome.id, f) in BindContainer(s, st).marks
            && IsWalk(World(g, |st.graph|, true), f, map[], path)
            && Embeds(Steps(g, f, path), r.machine.past)
            && AssignmentSteps(Steps(g, f, path)) == AssignmentEvents(r.machine.past)
  {
    hide BindContainer, ExecSeq, IsWalk, Steps, Embeds;
    var w, r := World(g, |st.graph|, true), Body(s, choices);
    FunctionFollowed(s, st, w, choices);
    f :| FlowAt(r.outcome.id, f) in BindContainer(s, st).marks && Explains(w, f, r.machine.past);
    path :| IsWalk(w, f, map[], path) && Embeds(Steps(g, f, path), r.machine.past);
    EmbedsSameAssignments(Steps(g, f, path), r.machine.past);
  }

  /** The same for a run that completes: it ends at the recorded end of the function. */
  lemma CompletionSoundness(s: Stmt, st: State, g: Graph, choices: seq<Choice>) returns (f: FlowId, path: seq<FlowId>)
    requires s.Function? && Valid(st) && Extends(BindContainer(s, st).graph, g) && SimpleSeq(s.statements, false)
    requires Body(s, choices).outcome.Completed?
    ensures var r := Body(s, choices);
            && EndFlow(s.id, f) in BindContainer(s, st).marks
            && IsWalk(World(g, |st.graph|, true), f, map[], path)
            && Embeds(Steps(g, f, path), r.machine.past)
            && AssignmentSteps(Steps(g, f, path)) == AssignmentEvents(r.machine.past)
  {
    hide BindContainer, ExecSeq, IsWalk, Steps, Embeds;
    var w, r := World(g, |st.graph|, true), Body(s, choices);
    FunctionFollowed(s, st, w, choices);
    f :| EndFlow(s.id, f) in BindContainer(s, st).marks && Explains(w, f, r.machine.past);
    path :| IsWalk(w, f, map[], path) && Embeds(Steps(g, f, path), r.machine.past);
    EmbedsSameAssignments(Steps(g, f, path), r.machine.past);
  }

  /** The same for a constructor, at its recorded return flow: through the finally blocks that a return
      passes, by their return antecedents only. */
  lemma ReturnSoundness(s: Stmt, st: State, g: Graph, choices: seq<Choice>) returns (f: FlowId, path: seq<FlowId>)
    requires s.Function? && s.isConstructor && Valid(st) && Extends(BindContainer(s, st).graph, g)
    requires SimpleSeq(s.statements, false)
    requires Body(s, choices).outcome.Completed? || Body(s, choices).outcome.Returned?
    ensures var r := Body(s, choices);
            && ReturnFlow(s.id, f) in BindContainer(s, st).marks
            && IsWalk(World(g, |st.graph|, true), f, map[], path)
            && Embeds(Steps(g, f, path), r.machine.past)
            && AssignmentSteps(Steps(g, f, path)) == AssignmentEvents(r.machine.past)
  {
    hide BindContainer, ExecSeq, IsWalk, Steps, Embeds;
    var w, r := World(g, |st.graph|, true), Body(s, choices);
    FunctionFollowed(s, st, w, choices);
    f :| ReturnFlow(s.id, f) in BindContainer(s, st).marks && Explains(w, f, r.machine.past);
    path :| IsWalk(w, f, map[], path) && Embeds(Steps(g, f, path), r.machine.past);
    EmbedsSameAssignments(Steps(g, f, path), r.machine.past);
  }

  /** Reachability soundness, for every function: exceptions anywhere, try statements nested at will and
      jumps through finally blocks. A statement that some run reaches has a reachable flow recorded. */
  lemma ReachabilitySoundness(s: Stmt, st: State, choices: seq<Choice>) returns (f: FlowId)
    requires s.Function? && Valid(st) && Body(s, choices).outcome.Reached?
    ensures FlowAt(Body(s, choices).outcome.id, f) in BindContainer(s, st).marks
    ensures f < |BindContainer(s, st).graph| && !IsUnreachable(BindContainer(s, st).graph, f)
  {
    hide BindContainer, ExecSeq, Extends;
    var g := BindContainer(s, st).graph;
    var w, r := World(g, |st.graph|, false), Body(s, choices);
    ExtendsRefl(g);
    FunctionFollowed(s, st, w, choices);
    f :| FlowAt(r.outcome.id, f) in BindContainer(s, st).marks && Explains(w, f, r.machine.past);
  }

  /** A statement for which no flow is recorded is reached by no run. */
  lemma UnreachableMeansNoRun(s: Stmt, st: State, id: nat)
    requires s.Function? && Valid(st) && forall f :: FlowAt(id, f) !in BindContainer(s, st).marks
    ensures forall choices :: Body(s, choices).outcome != Reached(id)
  {
    hide BindContainer, ExecSeq;
    forall choices
      ensures Body(s, choices).outcome != Reached(id)
    {
      if Body(s, choices).outcome == Reached(id) {
        var f := ReachabilitySoundness(s, st, choices);
      }
    }
  }

  /** A function whose body can complete normally has an implicit return. */
  lemma ImplicitReturn(s: Stmt, st: State, choices: seq<Choice>)
    requires s.Function? && Valid(st) && Body(s, choices).outcome.Completed?
    ensures HasImplicitReturn(s.id) in BindContainer(s, st).marks
  {
    hide BindContainer, ExecSeq, Extends;
    var g := BindContainer(s, st).graph;
    ExtendsRefl(g);
    FunctionFollowed(s, st, World(g, |st.graph|, false), choices);
  }

  // ----- labels -----

  /** A label accounts for the same runs as what it collapses to. */
  lemma LabelKeepsWalks(w: World, join: FlowId, env: Env, past: seq<Event>)
    requires |w.graph| > 0 && w.graph[UNREACHABLE_FLOW].Unreachable? && IsJoin(w.graph, join)
    ensures Matched(w, join, env, past) <==> Matched(w, FinishFlowLabel(w.graph, join), env, past)
  {
    var list, f := Antecedents(w.graph, join), FinishFlowLabel(w.graph, join);
    if list == [] {
      assert forall path :: !IsWalk(w, f, env, path) && !IsWalk(w, join, env, path);
      return;
    }
    if Matched(w, join, env, past) {
      var path :| IsWalk(w, join, env, path) && Embeds(Steps(w.graph, join, path), past);
      if |list| == 1 {
        assert path[0] == f;
        assert Steps(w.graph, join, path) == Steps(w.graph, f, path[1..]);
      }
    }
    if Matched(w, f, env, past) {
      if |list| == 1 {
        var steps, path := WalkFurther(w, join, f, env, past);
        assert steps + StepsAt(w.graph, join) == steps;
      }
    }
  }

  /** The label of a finally block has exactly the normal, exceptional and returning flows of the parts
      before it, in that order, also when the whole try statement is bound. */
  lemma FinallyListExact(s: Stmt, ctx: Context, st: State)
    requires s.Try? && s.finalizer.SomeBlock? && Valid(st) && forall t :: t in Targets(ctx) ==> t < |st.graph|
    ensures var g, out := BindGuarded(s, ctx, st), BindTry(s, ctx, st);
            && |g.state.graph| < |out.graph|
            && out.graph[|g.state.graph|] == FinallyLabel(Antecedents(out.graph, |st.graph|)
                 + (Antecedents(out.graph, g.exceptions) + Antecedents(out.graph, |st.graph| + 1)))
  {
    hide BindBlock, BindGuarded, LeaveFinally, Targets, Valid;
    var g, s2, s3 := TryStages(s, ctx, st);
    GuardedGrows(s, ctx, st);
    GuardedLabelsFresh(s, ctx, st);
    var n, normalList, exceptionList, returnList := |g.state.graph|,
      Antecedents(g.state.graph, |st.graph|), Antecedents(g.state.graph, g.exceptions), Antecedents(g.state.graph, |st.graph| + 1);
    BlockGrows(s.finalizer.statements, ctx, s2);
    LeaveFinallyGrows(ctx, s3, n, normalList, exceptionList, returnList);
    forall j | |st.graph| <= j < |s2.graph|
      ensures j < |BindTry(s, ctx, st).graph| && BindTry(s, ctx, st).graph[j] == s2.graph[j]
    {
      assert s3.graph[j] == s2.graph[j];
    }
  }

  lemma GuardedLabelsFresh(s: Stmt, ctx: Context, st: State)
    requires s.Try? && Valid(st)
    ensures var g := BindGuarded(s, ctx, st);
            |st.graph| <= g.exceptions < |g.state.graph| && |st.graph| + 1 < |g.state.graph|
  {
    hide BindBlock, Valid, Extends;
    var g0, e0, t, s1 := TryBlockStages(s, ctx, st);
    ExtendsLength(g0.graph, s1.graph);
    if s.handler.SomeBlock? {
      var c0, c1, e, t', s2 := HandlerStages(s, ctx, st, s1);
      ExtendsLength(c1.graph, s2.graph);
    }
  }

  // ----- short-circuit translation -----

  /** The target that an evaluation leads to. */
  function ArrivalTarget(t: FlowId, f: FlowId, exc: Option<FlowId>, outcome: ExprOutcome): Option<FlowId> {
    match outcome
    case Value(truthy) => Some(if truthy then t else f)
    case Threw => exc
    case Cut => None
  }

  /** From any flow that accounts for what has been done, whatever finally blocks are around: a condition
      that evaluates to a truth value has a walk ending in an antecedent of the target for that value, and
      one that raises an exception has a walk ending in an antecedent of the exception target. The
      assignments made on the way are on the walk, in order, and its conditions held. */
  lemma ConditionSoundness(e: Expr, t: FlowId, f: FlowId, exc: Option<FlowId>, st: State, w: World, fixed: Env,
                           past: seq<Event>, choices: seq<Choice>)
    returns (a: FlowId, path: seq<FlowId>)
    requires Valid(st) && w.precise && IsJoin(st.graph, t) && IsJoin(st.graph, f) && ExceptionLabel(st.graph, exc)
    requires Extends(BindCondition(e, t, f, exc, st).graph, w.graph) && Good(w, st.flow, fixed, past)
    requires exc.Some? ==> Into(w, st.graph, exc.value, fixed, past)
    ensures var r, out := Eval(e, Machine(past, choices)), BindCondition(e, t, f, exc, st);
            var target := ArrivalTarget(t, f, exc, r.outcome);
            target.Some? ==>
              && a in Antecedents(out.graph, target.value) && IsWalk(w, a, map[], path)
              && Embeds(Steps(w.graph, a, path), r.machine.past)
              && AssignmentSteps(Steps(w.graph, a, path)) == AssignmentEvents(r.machine.past)
  {
    hide Extends, BindCondition, Eval, IsWalk, Steps, Embeds, Good, Into;
    var m, out, r := Machine(past, choices), BindCondition(e, t, f, exc, st), Eval(e, Machine(past, choices));
    var v, target := View(w, out.graph, exc, fixed), ArrivalTarget(t, f, exc, r.outcome);
    ConditionEarlier(e, t, f, exc, st);
    ExtendsRefl(out.graph);
    if exc.Some? {
      IntoExtends(w, st.graph, out.graph, exc.value, fixed, past);
    }
    ConditionSound(e, t, f, st, v, m);
    a, path := 0, [];
    if target.Some? {
      assert Into(w, out.graph, target.value, fixed, r.machine.past);
      a, path := ArrivedWalk(w, out.graph, target.value, fixed, r.machine.past);
    }
  }

  lemma ArrivedWalk(w: World, g: Graph, target: FlowId, fixed: Env, past: seq<Event>)
    returns (a: FlowId, path: seq<FlowId>)
    requires w.precise && Into(w, g, target, fixed, past)
    ensures a in Antecedents(g, target) && IsWalk(w, a, map[], path) && Embeds(Steps(w.graph, a, path), past)
    ensures AssignmentSteps(Steps(w.graph, a, path)) == AssignmentEvents(past)
  {
    hide IsWalk, Steps, Embeds;
    a :| a in Antecedents(g, target) && Good(w, a, fixed, past);
    GoodExplains(w, a, fixed, past);
    path :| IsWalk(w, a, map[], path) && Embeds(Steps(w.graph, a, path), past);
    EmbedsSameAssignments(Steps(w.graph, a, path), past);
  }
}
