/** The conditions, clauses and loop variables that guard a statement, and that every backward walk from a flow
    recorded on the statement shows all of them. */
module FlowEvidence {
  import opened Wrappers
  import opened Syntax
  import opened FlowGraph
  import opened FlowBuilder
  import opened FlowGrowth
  import opened FlowMarks
  import opened FlowRegions
  import opened Walks
  import opened FlowGuards
  import StmtSoundness
  import FlowTheorems

  // ----- what guards a statement -----

  datatype Guard =
    | Tested(expr: Expr, sense: bool)
    | Chosen(switchId: nat, switched: Expr, clauses: seq<Clause>, index: nat)
    | Iterated(target: string)

  /** What guards the node with this id inside a statement. Inner functions are not looked into. */
  function GuardsOn(s: Stmt, id: nat): set<Guard>
    decreases s, 0
  {
    match s
    case Block(_, ss) => GuardsOnSeq(ss, id)
    case If(_, c, a, b) =>
      GuardsIn({Tested(c, true)}, a, id) + (if b.Some? then GuardsIn({Tested(c, false)}, b.value, id) else {})
    case Do(_, body, _) => GuardsIn({}, body, id)
    case While(_, c, body) => GuardsIn({Tested(c, true)}, body, id)
    case For(_, _, test, _, body) => GuardsIn(if test.Some? then {Tested(test.value, true)} else {}, body, id)
    case ForOf(_, x, _, body) => GuardsIn({Iterated(x)}, body, id)
    case Switch(_, _, clauses) => GuardsOnClauses(s, clauses, id)
    case Labeled(_, _, body) => GuardsIn({}, body, id)
    case Try(_, b, h, f) =>
      GuardsOnSeq(b, id) + (if h.SomeBlock? then GuardsOnSeq(h.statements, id) else {})
      + (if f.SomeBlock? then GuardsOnSeq(f.statements, id) else {})
    case _ => {}
  }

  function GuardsIn(own: set<Guard>, s: Stmt, id: nat): set<Guard>
    decreases s, 1
  {
    if id in Ids(s) then own + GuardsOn(s, id) else {}
  }

  function GuardsOnSeq(ss: seq<Stmt>, id: nat): set<Guard> {
    if ss == [] then {} else GuardsIn({}, ss[0], id) + GuardsOnSeq(ss[1..], id)
  }

  /** The last clauses of a switch statement. */
  function GuardsOnClauses(s: Stmt, rest: seq<Clause>, id: nat): set<Guard>
    requires s.Switch? && |rest| <= |s.clauses|
    decreases rest
  {
    if rest == [] then {}
    else
      (if id in IdsSeq(rest[0].body) then
         {Chosen(s.id, s.expr, s.clauses, |s.clauses| - |rest|)} + GuardsOnSeq(rest[0].body, id)
       else {})
      + GuardsOnClauses(s, rest[1..], id)
  }

  /** No two nodes have one id. */
  predicate Distinct(s: Stmt) {
    match s
    case Block(id, ss) => id !in IdsSeq(ss) && DistinctSeq(ss)
    case If(id, _, a, b) =>
      && id !in Ids(a) && Distinct(a)
      && (b.Some? ==> id !in Ids(b.value) && Distinct(b.value) && Ids(a) !! Ids(b.value))
    case Do(id, body, _) => id !in Ids(body) && Distinct(body)
    case While(id, _, body) => id !in Ids(body) && Distinct(body)
    case For(id, _, _, _, body) => id !in Ids(body) && Distinct(body)
    case ForOf(id, _, _, body) => id !in Ids(body) && Distinct(body)
    case Switch(id, _, clauses) => id !in IdsClauses(clauses) && DistinctClauses(clauses)
    case Labeled(id, _, body) => id !in Ids(body) && Distinct(body)
    case Try(id, b, h, f) =>
      && id !in IdsSeq(b) && id !in IdsBlock(h) && id !in IdsBlock(f)
      && IdsSeq(b) !! IdsBlock(h) && IdsSeq(b) !! IdsBlock(f) && IdsBlock(h) !! IdsBlock(f)
      && DistinctSeq(b) && (h.SomeBlock? ==> DistinctSeq(h.statements)) && (f.SomeBlock? ==> DistinctSeq(f.statements))
    case Function(id, _, ss) => id !in IdsSeq(ss) && DistinctSeq(ss)
    case _ => true
  }

  function IdsBlock(b: BlockOption): set<nat> {
    if b.SomeBlock? then IdsSeq(b.statements) else {}
  }

  predicate DistinctSeq(ss: seq<Stmt>) {
    ss == [] || (Distinct(ss[0]) && Ids(ss[0]) !! IdsSeq(ss[1..]) && DistinctSeq(ss[1..]))
  }

  predicate DistinctClauses(clauses: seq<Clause>) {
    || clauses == []
    || (&& DistinctSeq(clauses[0].body) && DistinctClauses(clauses[1..])
        && IdsSeq(clauses[0].body) !! IdsClauses(clauses[1..]))
  }

  // ----- what a walk shows -----

  /** The clauses from `lo` on that share the statements of clause `hi - 1`. */
  predicate IsGroup(clauses: seq<Clause>, lo: nat, hi: nat) {
    && lo < hi <= |clauses|
    && (forall i: nat :: lo <= i < hi - 1 ==> clauses[i].body == [])
    && (hi < |clauses| ==> clauses[hi - 1].body != [])
    && (lo > 0 ==> clauses[lo - 1].body != [])
  }

  /** The walk goes through exactly the clauses of a group that ends before clause `end`. */
  ghost predicate EntersBefore(switchId: nat, clauses: seq<Clause>, end: nat, steps: seq<Step>) {
    exists lo: nat, hi: nat :: IsGroup(clauses, lo, hi) && hi <= end && InClauses(switchId, lo, hi) in steps
  }

  ghost predicate Evident(guard: Guard, steps: seq<Step>) {
    match guard
    case Tested(e, sense) => Shows(e, sense, steps)
    case Chosen(id, e, clauses, index) => IsNarrowingSwitch(e) ==> EntersBefore(id, clauses, index + 1, steps)
    case Iterated(x) => Stored(x) in steps
  }

  /** A walk from a flow recorded on a node. */
  datatype Trail = Trail(w: World, id: nat, from: FlowId, path: seq<FlowId>)

  ghost predicate Guided(guards: set<Guard>, k: Trail) {
    forall g :: g in guards ==> Evident(g, Steps(k.w.graph, k.from, k.path))
  }

  lemma GuidedBoth(a: set<Guard>, b: set<Guard>, k: Trail)
    requires Guided(a, k) && Guided(b, k)
    ensures Guided(a + b, k)
  {
  }

  lemma {:induction false} NoGuards(ss: seq<Stmt>, id: nat)
    requires id !in IdsSeq(ss)
    ensures GuardsOnSeq(ss, id) == {}
  {
    hide Ids, GuardsOn;
    if ss != [] {
      NoGuards(ss[1..], id);
    }
  }

  lemma {:induction false} NoGuardsClauses(s: Stmt, rest: seq<Clause>, id: nat)
    requires s.Switch? && |rest| <= |s.clauses| && id !in IdsClauses(rest)
    ensures GuardsOnClauses(s, rest, id) == {}
    decreases rest
  {
    hide IdsSeq, GuardsOnSeq;
    if rest != [] {
      NoGuardsClauses(s, rest[1..], id);
    }
  }

  lemma NoOwnGuards(s: Stmt)
    requires Distinct(s)
    ensures GuardsOn(s, s.id) == {}
  {
    hide Ids, IdsSeq, DistinctSeq, DistinctClauses, GuardsOnSeq, GuardsOnClauses;
    match s
    case Block(_, ss) => NoGuards(ss, s.id);
    case Switch(_, _, clauses) => NoGuardsClauses(s, clauses, s.id);
    case Try(_, b, h, f) =>
      NoGuards(b, s.id);
      if h.SomeBlock? {
        NoGuards(h.statements, s.id);
      }
      if f.SomeBlock? {
        NoGuards(f.statements, s.id);
      }
    case _ =>
  }

  // ----- parts of what is bound -----

  /** The reduce labels made since `b` reduce finally labels made since `b`. */
  ghost predicate LaterReduces(b: State, out: State) {
    forall i :: |b.graph| <= i < |out.graph| && out.graph[i].ReduceLabel? ==> out.graph[i].finallyLabel >= |b.graph|
  }

  /** What is bound from `b` on: `targets` are the labels of `b` that it adds to. */
  ghost predicate Rest(targets: set<FlowId>, b: State, out: State) {
    Valid(b) && Valid(out) && Grows(targets, b, out) && LaterReduces(b, out)
  }

  lemma RestBegin(targets: set<FlowId>, st: State)
    requires Valid(st)
    ensures Rest(targets, st, st)
  {
    hide Valid;
    Begin(targets, st);
  }

  lemma RestStep(all: set<FlowId>, a: State, first: set<FlowId>, b: State, second: set<FlowId>, c: State)
    requires Rest(first, a, b) && Rest(second, b, c)
    requires forall x: FlowId :: x < |a.graph| && (x in first || x in second) ==> x in all
    ensures Rest(all, a, c)
  {
    hide Valid;
    Begin(all, a);
    FlowGrowth.Step(all, a, a, first, b);
    FlowGrowth.Step(all, a, b, second, c);
    forall i | |a.graph| <= i < |c.graph| && c.graph[i].ReduceLabel?
      ensures c.graph[i].finallyLabel >= |a.graph|
    {
      if i < |b.graph| {
        assert Refines(b.graph[i], c.graph[i]);
      }
    }
  }

  lemma RestMore(all: set<FlowId>, a: State, targets: set<FlowId>, b: State)
    requires Rest(targets, a, b) && targets <= all
    ensures Rest(all, a, b)
  {
    hide Valid;
  }

  lemma RestLength(targets: set<FlowId>, a: State, b: State)
    requires Rest(targets, a, b)
    ensures Valid(a) && Valid(b) && Grows(targets, a, b) && Extends(a.graph, b.graph) && 2 <= |a.graph| <= |b.graph|
    ensures a.flow < |a.graph|
  {
  }

  lemma SameRest(targets: set<FlowId>, a: State, b: State)
    requires Valid(a) && Valid(b) && Grows(targets, a, b) && |b.graph| == |a.graph|
    ensures Rest(targets, a, b)
  {
    hide Valid, Grows;
  }

  lemma EnclosedRest(targets: set<FlowId>, a: State, b: State)
    requires Valid(a) && Valid(b) && Grows(targets, a, b) && Enclosed(a, {}, b)
    ensures Rest(targets, a, b)
  {
    hide Valid, Grows;
    forall i | |a.graph| <= i < |b.graph| && b.graph[i].ReduceLabel?
      ensures b.graph[i].finallyLabel >= |a.graph|
    {
      assert NodeInside(a, {}, b.graph[i]);
    }
  }

  lemma Beginning(st: State)
    requires Valid(st)
    ensures Enclosed(st, {}, st) && 2 <= |st.graph| && st.flow < |st.graph|
  {
    hide Enclosed;
    Enclosing(st, {});
  }

  lemma JoinRest(st: State, join: FlowId, from: FlowId)
    requires Valid(st) && from < |st.graph|
    ensures Rest({join}, st, JoinFrom(st, join, from))
  {
    hide Valid, Grows, AddAntecedent;
    JoinFromGrows(st, join, from);
    SameRest({join}, st, JoinFrom(st, join, from));
  }

  lemma ResumeRest(st: State, join: FlowId)
    requires Valid(st)
    ensures Rest({}, st, Resume(st, join)) && Resume(st, join).flow == FinishFlowLabel(Resume(st, join).graph, join)
  {
    hide Valid, Grows, FinishFlowLabel;
    ResumeGrows(st, join);
    SameRest({}, st, Resume(st, join));
  }

  lemma MoveRest(a: State, b: State)
    requires Valid(a) && a.graph == b.graph && a.marks == b.marks && b.flow < |b.graph|
    ensures Rest({}, a, b)
  {
    hide Valid, Grows;
    MoveGrows(a, b);
    SameRest({}, a, b);
  }

  /** Joins a label and goes on from one. */
  lemma JoinResumeRest(st: State, join: FlowId, next: FlowId)
    requires Valid(st)
    ensures var r := Resume(Join(st, join), next);
            Rest({join}, st, r) && r.flow == FinishFlowLabel(r.graph, next)
  {
    hide Rest, Valid, AddAntecedent, Resume;
    Beginning(st);
    JoinRest(st, join, st.flow);
    RestLength({join}, st, Join(st, join));
    ResumeRest(Join(st, join), next);
    RestStep({join}, st, {join}, Join(st, join), {}, Resume(Join(st, join), next));
  }

  lemma LabelsRest(a: State, b: State, nodes: seq<FlowNode>)
    requires Valid(a) && b.graph == a.graph + nodes && b.marks == a.marks && b.flow < |b.graph|
    requires forall n :: n in nodes ==> n.Start? || (IsLabel(n) && n.antecedents == [])
    ensures Rest({}, a, b)
  {
    hide Grows;
    AppendGrows(a, b, nodes);
    forall i | |a.graph| <= i < |b.graph|
      ensures !b.graph[i].ReduceLabel?
    {
      assert b.graph[i] == nodes[i - |a.graph|] && b.graph[i] in nodes;
    }
  }

  lemma MutateRest(st: State, exc: Option<FlowId>, x: string)
    requires Valid(st)
    ensures Rest(Optional(exc), st, Mutate(st, exc, x))
  {
    hide Valid, Grows, Enclosed, Mutate;
    Beginning(st);
    MutateGrows(st, exc, x);
    MutateEnclosed(st, {}, st, exc, x);
    EnclosedRest(Optional(exc), st, Mutate(st, exc, x));
  }

  lemma ExprRest(e: Expr, exc: Option<FlowId>, st: State)
    requires Valid(st)
    ensures Rest(Optional(exc), st, BindExpr(e, AsValue, exc, st))
  {
    hide Valid, Grows, Enclosed, BindExpr;
    Beginning(st);
    ExprGrows(e, AsValue, exc, st);
    ExprEnclosed(st, {}, e, AsValue, exc, st);
    assert ModeTargets(AsValue) + Optional(exc) == Optional(exc);
    EnclosedRest(Optional(exc), st, BindExpr(e, AsValue, exc, st));
  }

  lemma OptionalRest(e: Option<Expr>, exc: Option<FlowId>, st: State)
    requires Valid(st)
    ensures Rest(Optional(exc), st, BindOptional(e, exc, st))
  {
    hide Rest, BindExpr;
    if e.Some? {
      ExprRest(e.value, exc, st);
    } else {
      RestBegin(Optional(exc), st);
    }
  }

  lemma ConditionRest(e: Expr, t: FlowId, f: FlowId, exc: Option<FlowId>, st: State)
    requires Valid(st)
    ensures Rest({t, f} + Optional(exc), st, BindCondition(e, t, f, exc, st))
  {
    hide Valid, Grows, Enclosed, BindCondition;
    Beginning(st);
    ConditionGrows(e, t, f, exc, st);
    ConditionEnclosed(st, {}, e, t, f, exc, st);
    EnclosedRest({t, f} + Optional(exc), st, BindCondition(e, t, f, exc, st));
  }

  lemma OptionalConditionRest(e: Option<Expr>, t: FlowId, f: FlowId, exc: Option<FlowId>, st: State)
    requires Valid(st)
    ensures Rest({t, f} + Optional(exc), st, BindOptionalCondition(e, t, f, exc, st))
  {
    hide Valid, Grows, Enclosed, BindOptionalCondition;
    Beginning(st);
    OptionalConditionGrows(e, t, f, exc, st);
    OptionalConditionEnclosed(st, {}, e, t, f, exc, st);
    EnclosedRest({t, f} + Optional(exc), st, BindOptionalCondition(e, t, f, exc, st));
  }

  lemma StmtRest(s: Stmt, ctx: Context, st: State)
    requires Valid(st)
    ensures Rest(Targets(ctx), st, BindStmt(s, ctx, st)) && Enclosed(st, {}, BindStmt(s, ctx, st))
  {
    hide Valid, Grows, Enclosed, BindStmt, Targets;
    Beginning(st);
    StmtGrows(s, ctx, st);
    StmtEnclosed(st, {}, s, ctx, st);
    EnclosedRest(Targets(ctx), st, BindStmt(s, ctx, st));
  }

  lemma BlockRest(ss: seq<Stmt>, ctx: Context, st: State)
    requires Valid(st)
    ensures Rest(Targets(ctx), st, BindBlock(ss, ctx, st)) && Enclosed(st, {}, BindBlock(ss, ctx, st))
  {
    hide Valid, Grows, Enclosed, BindBlock, Targets;
    Beginning(st);
    BlockGrows(ss, ctx, st);
    BlockEnclosed(st, {}, ss, ctx, st);
    EnclosedRest(Targets(ctx), st, BindBlock(ss, ctx, st));
  }

  lemma FunctionsRest(ss: seq<Stmt>, st: State)
    requires Valid(st)
    ensures Rest({}, st, BindFunctions(ss, st)) && Enclosed(st, {}, BindFunctions(ss, st))
  {
    hide Valid, Grows, Enclosed, BindFunctions;
    Beginning(st);
    FunctionsGrow(ss, st);
    FunctionsEnclosed(st, {}, ss, st);
    EnclosedRest({}, st, BindFunctions(ss, st));
  }

  lemma OthersRest(ss: seq<Stmt>, ctx: Context, st: State)
    requires Valid(st)
    ensures Rest(Targets(ctx), st, BindOthers(ss, ctx, st))
  {
    hide Valid, Grows, Enclosed, BindOthers, Targets;
    Beginning(st);
    OthersGrow(ss, ctx, st);
    OthersEnclosed(st, {}, ss, ctx, st);
    EnclosedRest(Targets(ctx), st, BindOthers(ss, ctx, st));
  }

  lemma EachRest(ss: seq<Stmt>, ctx: Context, st: State)
    requires Valid(st)
    ensures Rest(Targets(ctx), st, BindEach(ss, ctx, st)) && Enclosed(st, {}, BindEach(ss, ctx, st))
  {
    hide Valid, Grows, Enclosed, BindEach, Targets;
    Beginning(st);
    EachGrows(ss, ctx, st);
    EachEnclosed(st, {}, ss, ctx, st);
    EnclosedRest(Targets(ctx), st, BindEach(ss, ctx, st));
  }

  /** The finished graph has what was made from `a` to `b` as it was then. */
  ghost predicate Kept(a: State, b: State, w: World) {
    && Valid(a) && Valid(b) && |a.graph| <= |b.graph| && w.start < |a.graph|
    && FlowGuards.Settled(a, b, w.graph) && Extends(a.graph, b.graph) && Extends(b.graph, w.graph)
    && (forall i :: |a.graph| <= i < |b.graph| && w.graph[i].ReduceLabel? ==> w.graph[i].finallyLabel < i)
  }

  /** The finished graph has what was made from `a` to `b`; the trail starts at a flow recorded then. */
  ghost predicate Trailed(a: State, b: State, k: Trail) {
    && Kept(a, b, k.w) && IsWalk(k.w, k.from, map[], k.path)
    && FlowAt(k.id, k.from) in b.marks && FlowAt(k.id, k.from) !in a.marks
  }

  /** What is made after `b` reduces no finally label made from `a` to `b`. */
  ghost predicate Apart(a: State, b: State, out: State) {
    forall i :: |b.graph| <= i < |out.graph| && out.graph[i].ReduceLabel? ==>
      out.graph[i].finallyLabel >= |b.graph| || out.graph[i].finallyLabel < |a.graph|
  }

  lemma ApartKept(st: State, a: State, b: State, out: State, targets: set<FlowId>, w: World)
    requires Kept(st, out, w) && Valid(a) && Valid(b) && |st.graph| <= |a.graph| && Extends(a.graph, b.graph)
    requires Grows(targets, b, out) && AllUnder(targets, |a.graph|) && Apart(a, b, out)
    ensures Kept(a, b, w)
  {
    hide Valid;
    ExtendsTrans(b.graph, out.graph, w.graph);
    forall i | 0 <= i < |w.graph| && w.graph[i].ReduceLabel? && |a.graph| <= w.graph[i].finallyLabel < |b.graph|
      ensures |a.graph| <= i < |b.graph|
    {
      assert |st.graph| <= i < |out.graph| && w.graph[i] == out.graph[i];
    }
  }

  lemma PartKept(st: State, a: State, b: State, out: State, targets: set<FlowId>, w: World)
    requires Kept(st, out, w) && Valid(a) && |st.graph| <= |a.graph| && Extends(a.graph, b.graph)
    requires Rest(targets, b, out) && AllUnder(targets, |a.graph|)
    ensures Kept(a, b, w)
  {
    hide Valid, Kept, Grows;
    assert Apart(a, b, out);
    ApartKept(st, a, b, out, targets, w);
  }

  lemma PartTrailed(st: State, a: State, b: State, out: State, k: Trail)
    requires Trailed(st, out, k) && Kept(a, b, k.w) && Unmarked(k.id, st, a) && Unmarked(k.id, b, out)
    ensures Trailed(a, b, k)
  {
    hide Kept;
    assert FlowAt(k.id, k.from).id == k.id;
  }

  /** What is bound in reachable code only. */
  lemma TrailLive(a: State, b: State, k: Trail)
    requires Trailed(a, b, k) && Enclosed(a, {}, b)
    ensures !Dead(a)
  {
    hide Enclosed, Settled, Stems, Steps, Valid;
    TrailInside(a, b, k);
    NothingStems(k.w.graph);
    var j, env, more := PassesEntry(a, {}, b, k.w, k.from, map[], k.path);
    FlowKept(a, b, k.w);
    var rest := k.path[j..];
    assert IsWalk(k.w, a.flow, env, rest);
  }

  lemma FlowKept(a: State, b: State, w: World)
    requires Kept(a, b, w) && Enclosed(a, {}, b)
    ensures a.flow < |w.graph| && (Dead(a) ==> w.graph[a.flow].Unreachable?)
  {
    ExtendsTrans(a.graph, b.graph, w.graph);
    assert Refines(a.graph[a.flow], w.graph[a.flow]);
  }

  lemma TrailInside(a: State, b: State, k: Trail)
    requires Trailed(a, b, k) && Enclosed(a, {}, b)
    ensures Inside(a, k.from) && k.from < |b.graph| && k.w.start < |a.graph| && FlowGuards.Settled(a, b, k.w.graph)
    ensures IsWalk(k.w, k.from, map[], k.path)
  {
  }

  // ----- conditions -----

  /** `target` still has the antecedents that it had when it was completed. */
  ghost predicate Completed(w: World, g: Graph, target: FlowId) {
    IsJoin(w.graph, target) && Antecedents(w.graph, target) == Antecedents(g, target)
  }

  lemma LabelCompleted(st: State, out: State, w: World, s0: State, s1: State, late: set<FlowId>, target: FlowId)
    requires Kept(st, out, w) && |st.graph| <= target < |s0.graph| && IsJoin(s0.graph, target)
    requires Extends(s0.graph, s1.graph) && Rest(late, s1, out) && target !in late
    ensures Completed(w, s1.graph, target)
  {
    assert Refines(s0.graph[target], s1.graph[target]);
    assert s1.graph[target] == out.graph[target] == w.graph[target];
  }

  /** A condition that is bound from `s0` to `s1`, and the part from `r` to `end` that its outcome leads to. */
  ghost predicate Branching(e: Expr, sense: bool, t: FlowId, f: FlowId, exc: Option<FlowId>, s0: State, s1: State,
                            r: State,
                            end: State, w: World) {
    && Aimed(s0, t, f, exc) && s1 == BindCondition(e, t, f, exc, s0) && Kept(s0, s1, w) && Kept(r, end, w)
    && Antecedents(s0.graph, TargetOf(sense, t, f)) == [] && Completed(w, s1.graph, TargetOf(sense, t, f))
    && r.flow == FinishFlowLabel(s1.graph, TargetOf(sense, t, f)) && Enclosed(r, {}, end)
  }

  lemma TestedPart(e: Expr, sense: bool, t: FlowId, f: FlowId, exc: Option<FlowId>, s0: State, s1: State, r: State,
                   end: State,
                   k: Trail)
    requires Branching(e, sense, t, f, exc, s0, s1, r, end, k.w) && Trailed(r, end, k)
    ensures Guided({Tested(e, sense)}, k)
  {
    hide Enclosed, Stems, Steps, Valid, BindCondition, FinishFlowLabel, IsWalk, Shows, FlowGuards.Settled, Extends;
    var target := TargetOf(sense, t, f);
    TrailInside(r, end, k);
    NothingStems(k.w.graph);
    var j, env, more := PassesEntry(r, {}, end, k.w, k.from, map[], k.path);
    SettledNodes(r, end, k.w.graph);
    var a, rest := FromLabel(k.w, s1.graph, target, env, k.path[j..]);
    ConditionShows(e, t, f, exc, s0, k.w, sense, a, env, rest);
    ShowsMore(e, sense, Steps(k.w.graph, a, rest), more);
  }

  lemma Aiming(s0: State, t: FlowId, f: FlowId, exc: Option<FlowId>, ctx: Context, size: nat)
    requires Valid(s0) && AllUnder(Targets(ctx), size) && exc == ctx.exceptionTarget
    requires size <= t < |s0.graph| && size <= f < |s0.graph| && t != f
    ensures Aimed(s0, t, f, exc)
  {
    assert exc.Some? ==> exc.value in Targets(ctx);
  }

  // ----- statements -----

  lemma {:induction false} StmtEvidence(s: Stmt, ctx: Context, st: State, k: Trail)
    requires Trailed(st, BindStmt(s, ctx, st), k) && AllUnder(Targets(ctx), |st.graph|) && Distinct(s)
    ensures Guided(GuardsOn(s, k.id), k)
    decreases s, 4
  {
    hide Trailed, BindLive, BindContainer, BindDead, GuardsOn, Distinct, Targets, Enclosed, Valid, AllUnder;
    if s.Function? {
      NoGuardsOnFunction(s, k.id);
    } else {
      TrailValid(st, BindStmt(s, ctx, st), k);
      Beginning(st);
      StmtEnclosed(st, {}, s, ctx, st);
      TrailLive(st, BindStmt(s, ctx, st), k);
      if k.id == s.id {
        NoOwnGuards(s);
      } else {
        TrailRecord(s, st, BindStmt(s, ctx, st), k);
        LiveEvidence(s, ctx, Record(s, st), k);
      }
    }
  }

  lemma NoGuardsOnFunction(s: Stmt, id: nat)
    requires s.Function?
    ensures GuardsOn(s, id) == {}
  {
  }

  lemma TrailValid(a: State, b: State, k: Trail)
    requires Trailed(a, b, k)
    ensures Valid(a) && Valid(b) && Kept(a, b, k.w) && 2 <= |a.graph| && a.flow < |a.graph|
  {
  }

  lemma TrailRecord(s: Stmt, st: State, out: State, k: Trail)
    requires Trailed(st, out, k) && k.id != s.id
    ensures Trailed(Record(s, st), out, k)
  {
  }

  lemma {:induction false} LiveEvidence(s: Stmt, ctx: Context, st: State, k: Trail)
    requires Trailed(st, BindLive(s, ctx, st), k) && AllUnder(Targets(ctx), |st.graph|) && Distinct(s) && k.id != s.id
    ensures Guided(GuardsOn(s, k.id), k)
    decreases s, 3
  {
    hide Trailed, Targets, BindBlock, BindSwitch, BindTry, AllUnder, Guided, GuardsOnSeq, Ids, IdsSeq;
    match s
    case Block(_, ss) =>
      OwnTargets(ctx);
      BlockEvidence(ss, Inner(ctx), st, k);
    case If(_, _, _, _) => IfEvidence(s, ctx, st, k);
    case While(_, _, _) => WhileEvidence(s, ctx, st, k);
    case Do(_, _, _) => DoEvidence(s, ctx, st, k);
    case For(_, _, _, _, _) => ForEvidence(s, ctx, st, k);
    case ForOf(_, _, _, _) => ForOfEvidence(s, ctx, st, k);
    case Switch(_, _, _) => SwitchEvidence(s, ctx, st, k);
    case Labeled(_, _, _) => LabeledEvidence(s, ctx, st, k);
    case Try(_, _, _, _) =>
      OwnTargets(ctx);
      TryEvidence(s, Inner(ctx), st, k);
    case _ => NothingGuided(k);
  }

  lemma NothingGuided(k: Trail)
    ensures Guided({}, k)
  {
  }

  /** A statement that is bound from `r` to `end`, guarded by a condition that is bound from `s0` to `s1`; `late` are the
      labels that gain antecedents after the condition. */
  ghost predicate Guarding(e: Expr, sense: bool, t: FlowId, f: FlowId, exc: Option<FlowId>, s0: State, s1: State,
                           r: State,
                           end: State, part: Stmt, inner: Context, late: set<FlowId>, st: State, out: State) {
    var target := TargetOf(sense, t, f);
    && Aimed(s0, t, f, exc) && s1 == BindCondition(e, t, f, exc, s0) && Extends(s0.graph, s1.graph)
    && |st.graph| <= target < |s0.graph| && s0.graph[target] == BranchLabel([])
    && Rest(late, s1, out) && target !in late && AllUnder(late, |s0.graph|)
    && Valid(r) && |s0.graph| <= |r.graph| && r.flow == FinishFlowLabel(s1.graph, target)
    && end == BindStmt(part, inner, r) && Rest(late, end, out) && AllUnder(Targets(inner), |r.graph|)
  }

  /** A part of a statement without a condition of its own. */
  ghost predicate Plain(r: State, end: State, part: Stmt, inner: Context, late: set<FlowId>, st: State, out: State) {
    && Valid(r) && |st.graph| <= |r.graph| && end == BindStmt(part, inner, r) && AllUnder(Targets(inner), |r.graph|)
    && Rest(late, end, out) && AllUnder(late, |r.graph|)
  }

  lemma {:induction false} PlainEvidence(r: State, end: State, part: Stmt, inner: Context, late: set<FlowId>, st: State,
                                         out: State, k: Trail)
    requires Plain(r, end, part, inner, late, st, out)
    requires Trailed(st, out, k) && Distinct(part) && Unmarked(k.id, st, r) && Unmarked(k.id, end, out)
    ensures Trailed(r, end, k) && Enclosed(r, {}, end) && Guided(GuardsOn(part, k.id), k)
    decreases part, 5
  {
    hide Trailed, Kept, Rest, Targets, Valid, Grows, Enclosed, BindStmt, Distinct, Extends, Guided, GuardsOn, Unmarked,
         AllUnder;
    TrailValid(st, out, k);
    StmtRest(part, inner, r);
    RestLength(Targets(inner), r, end);
    PartKept(st, r, end, out, late, k.w);
    PartTrailed(st, r, end, out, k);
    StmtEvidence(part, inner, r, k);
  }

  lemma {:induction false} PartEvidence(e: Expr, sense: bool, t: FlowId, f: FlowId, exc: Option<FlowId>, s0: State,
                                        s1: State,
                                        r: State, end: State, part: Stmt, inner: Context, late: set<FlowId>, st: State,
                                        out: State, k: Trail)
    requires Guarding(e, sense, t, f, exc, s0, s1, r, end, part, inner, late, st, out)
    requires Trailed(st, out, k) && Distinct(part) && Unmarked(k.id, st, r) && Unmarked(k.id, end, out)
    ensures Guided({Tested(e, sense)} + GuardsOn(part, k.id), k)
    decreases part, 6
  {
    hide Trailed, Kept, Rest, Targets, Valid, Grows, Enclosed, BindStmt, BindCondition, FinishFlowLabel, Distinct,
         Extends, Guided, GuardsOn, Completed, Unmarked, AllUnder;
    TrailValid(st, out, k);
    GuardingUnder(late, |s0.graph|, |r.graph|);
    PlainEvidence(r, end, part, inner, late, st, out, k);
    PartKept(st, s0, s1, out, late, k.w);
    LabelCompleted(st, out, k.w, s0, s1, late, TargetOf(sense, t, f));
    TrailValid(r, end, k);
    TestedPart(e, sense, t, f, exc, s0, s1, r, end, k);
    GuidedBoth({Tested(e, sense)}, GuardsOn(part, k.id), k);
  }

  lemma GuardingUnder(targets: set<FlowId>, size: nat, size': nat)
    requires AllUnder(targets, size) && size <= size'
    ensures AllUnder(targets, size')
  {
  }

  /** The labels of a statement, made first. */
  predicate Between(own: set<FlowId>, low: nat, high: nat) {
    forall x :: x in own ==> low <= x < high
  }

  lemma GuardingHolds(e: Expr, sense: bool, t: FlowId, f: FlowId, exc: Option<FlowId>, s0: State, s1: State, r: State,
                      end: State, part: Stmt, inner: Context, own: set<FlowId>, ctx: Context, st: State, out: State)
    requires Valid(st) && Valid(s0) && AllUnder(Targets(ctx), |st.graph|) && exc == ctx.exceptionTarget
    requires |st.graph| <= t < |s0.graph| && |st.graph| <= f < |s0.graph| && t != f
    requires s0.graph[TargetOf(sense, t, f)] == BranchLabel([]) && TargetOf(sense, t, f) !in own
    requires Between(own, |st.graph|, |s0.graph|)
    requires s1 == BindCondition(e, t, f, exc, s0) && Rest({t, f} + Optional(exc), s0, s1)
    requires Rest(Targets(ctx) + own, s1, r) && Rest(Targets(ctx) + own, r, out) && Rest(Targets(ctx) + own, end, out)
    requires r.flow == FinishFlowLabel(r.graph, TargetOf(sense, t, f)) && end == BindStmt(part, inner, r)
    requires AllUnder(Targets(inner), |s0.graph|)
    ensures Guarding(e, sense, t, f, exc, s0, s1, r, end, part, inner, Targets(ctx) + own, st, out)
  {
    hide Rest, Targets, Valid, Grows, BindStmt, BindCondition, Extends, FinishFlowLabel;
    var target, late := TargetOf(sense, t, f), Targets(ctx) + own;
    Aiming(s0, t, f, exc, ctx, |st.graph|);
    RestLength({t, f} + Optional(exc), s0, s1);
    RestLength(late, s1, r);
    RestStep(late, s1, late, r, late, out);
    SameAntecedents(late, s1, r, target);
    GuardingUnder(Targets(inner), |s0.graph|, |r.graph|);
  }

  lemma SameAntecedents(targets: set<FlowId>, a: State, b: State, target: FlowId)
    requires Grows(targets, a, b) && target !in targets && target < |a.graph|
    ensures FinishFlowLabel(a.graph, target) == FinishFlowLabel(b.graph, target)
  {
  }

  lemma {:induction false} IfEvidence(s: Stmt, ctx: Context, st: State, k: Trail)
    requires s.If? && Trailed(st, BindLive(s, ctx, st), k) && AllUnder(Targets(ctx), |st.graph|) && Distinct(s)
    ensures Guided(GuardsOn(s, k.id), k)
    decreases s, 2
  {
    hide Trailed, Guarding, Targets, Valid, BindLive, Ids, Distinct, Guided, Unmarked, AllUnder;
    TrailValid(st, BindLive(s, ctx, st), k);
    var out, late := BindLive(s, ctx, st), Targets(ctx) + {|st.graph| + 2};
    var s0, s1, r1, t, s3, e := IfParts(s, ctx, st);
    IfMarks(s, ctx, st, s0, s1, r1, t, s3, e, k.id);
    DistinctIf(s);
    NothingGuided(k);
    if k.id in Ids(s.thenStmt) {
      PartEvidence(s.cond, true, |st.graph|, |st.graph| + 1, ctx.exceptionTarget, s0, s1, r1, t, s.thenStmt, Inner(ctx), late,
                   st, out, k);
      assert GuardsOn(s, k.id) == {Tested(s.cond, true)} + GuardsOn(s.thenStmt, k.id);
    } else if s.elseStmt.Some? && k.id in Ids(s.elseStmt.value) {
      PartEvidence(s.cond, false, |st.graph|, |st.graph| + 1, ctx.exceptionTarget, s0, s1, s3, e, s.elseStmt.value, Inner(ctx),
                   late, st, out, k);
      assert GuardsOn(s, k.id) == {Tested(s.cond, false)} + GuardsOn(s.elseStmt.value, k.id);
    } else {
      assert GuardsOn(s, k.id) == {};
    }
  }

  lemma DistinctIf(s: Stmt)
    requires s.If? && Distinct(s)
    ensures Distinct(s.thenStmt)
    ensures s.elseStmt.Some? ==> Distinct(s.elseStmt.value) && Ids(s.thenStmt) !! Ids(s.elseStmt.value)
  {
  }

  lemma IfRests(all: set<FlowId>, post: FlowId, s1: State, r1: State, t: State, s3: State, e: State, out: State)
    requires Rest({}, s1, r1) && Rest(all, r1, t) && Rest({post}, t, s3) && Rest(all, s3, e) && Rest({post}, e, out)
    ensures var late := all + {post};
            && Rest(late, s1, r1) && Rest(late, r1, out) && Rest(late, t, out)
            && Rest(late, s1, s3) && Rest(late, s3, out) && Rest(late, e, out)
  {
    hide Rest;
    var late := all + {post};
    RestMore(late, e, {post}, out);
    RestStep(late, s3, all, e, late, out);
    RestStep(late, t, {post}, s3, late, out);
    RestStep(late, r1, all, t, late, out);
    RestMore(late, s1, {}, r1);
    RestStep(late, s1, late, r1, all, t);
    RestStep(late, s1, late, t, {post}, s3);
  }

  /** The states while an if statement is bound. */
  predicate IfStates(s: Stmt, ctx: Context, st: State, s0: State, s1: State, r1: State, t: State, s3: State, e: State)
    requires s.If?
  {
    && s0 == NewLabels(st, BRANCHES)
    && s1 == BindCondition(s.cond, |st.graph|, |st.graph| + 1, ctx.exceptionTarget, s0)
    && r1 == Resume(s1, |st.graph|) && t == BindStmt(s.thenStmt, Inner(ctx), r1)
    && s3 == Resume(Join(t, |st.graph| + 2), |st.graph| + 1)
    && e == (if s.elseStmt.Some? then BindStmt(s.elseStmt.value, Inner(ctx), s3) else s3)
    && BindLive(s, ctx, st) == Resume(Join(e, |st.graph| + 2), |st.graph| + 2)
  }

  lemma IfParts(s: Stmt, ctx: Context, st: State)
    returns (s0: State, s1: State, r1: State, t: State, s3: State, e: State)
    requires s.If? && Valid(st) && AllUnder(Targets(ctx), |st.graph|)
    ensures IfStates(s, ctx, st, s0, s1, r1, t, s3, e)
    ensures var late, out := Targets(ctx) + {|st.graph| + 2}, BindLive(s, ctx, st);
            && Guarding(s.cond, true, |st.graph|, |st.graph| + 1, ctx.exceptionTarget, s0, s1, r1, t, s.thenStmt, Inner(ctx), late,
                        st, out)
            && (s.elseStmt.Some? ==>
                  Guarding(s.cond, false, |st.graph|, |st.graph| + 1, ctx.exceptionTarget, s0, s1, s3, e, s.elseStmt.value,
                           Inner(ctx), late, st, out))
  {
    hide Rest, Targets, Valid, Grows, BindStmt, BindCondition, AddAntecedent, Extends, FinishFlowLabel, Guarding,
         Resume;
    var exc, thenLabel, elseLabel, post := ctx.exceptionTarget, |st.graph|, |st.graph| + 1, |st.graph| + 2;
    var all, late, out := Targets(ctx), Targets(ctx) + {post}, BindLive(s, ctx, st);
    Beginning(st);
    OwnTargets(ctx);
    s0 := NewLabels(st, BRANCHES);
    LabelsRest(st, s0, BRANCHES);
    RestLength({}, st, s0);
    s1 := BindCondition(s.cond, thenLabel, elseLabel, exc, s0);
    ConditionRest(s.cond, thenLabel, elseLabel, exc, s0);
    RestLength({thenLabel, elseLabel} + Optional(exc), s0, s1);
    r1 := Resume(s1, thenLabel);
    ResumeRest(s1, thenLabel);
    RestLength({}, s1, r1);
    t := BindStmt(s.thenStmt, Inner(ctx), r1);
    StmtRest(s.thenStmt, Inner(ctx), r1);
    RestLength(all, r1, t);
    s3 := Resume(Join(t, post), elseLabel);
    JoinResumeRest(t, post, elseLabel);
    RestLength({post}, t, s3);
    e := if s.elseStmt.Some? then BindStmt(s.elseStmt.value, Inner(ctx), s3) else s3;
    RestBegin(all, s3);
    if s.elseStmt.Some? {
      StmtRest(s.elseStmt.value, Inner(ctx), s3);
    }
    RestLength(all, s3, e);
    JoinResumeRest(e, post, post);
    IfRests(all, post, s1, r1, t, s3, e, out);
    GuardingHolds(s.cond, true, thenLabel, elseLabel, exc, s0, s1, r1, t, s.thenStmt, Inner(ctx), {post}, ctx, st, out);
    if s.elseStmt.Some? {
      GuardingHolds(s.cond, false, thenLabel, elseLabel, exc, s0, s1, s3, e, s.elseStmt.value, Inner(ctx), {post}, ctx, st, out);
    }
  }

  lemma IfMarks(s: Stmt, ctx: Context, st: State, s0: State, s1: State, r1: State, t: State, s3: State, e: State,
                id: nat)
    requires s.If? && IfStates(s, ctx, st, s0, s1, r1, t, s3, e)
    ensures Unmarked(id, st, r1)
    ensures s.elseStmt.Some? && id !in Ids(s.elseStmt.value) ==> Unmarked(id, t, BindLive(s, ctx, st))
    ensures s.elseStmt.None? ==> Unmarked(id, t, BindLive(s, ctx, st))
    ensures id !in Ids(s.thenStmt) ==> Unmarked(id, st, s3)
    ensures Unmarked(id, e, BindLive(s, ctx, st))
  {
    hide BindStmt, BindCondition, AddAntecedent, FinishFlowLabel, Ids;
    ConditionMarks(s.cond, |st.graph|, |st.graph| + 1, ctx.exceptionTarget, s0);
    if id !in Ids(s.thenStmt) {
      StmtMarks(id, s.thenStmt, Inner(ctx), r1);
    }
    if s.elseStmt.Some? && id !in Ids(s.elseStmt.value) {
      StmtMarks(id, s.elseStmt.value, Inner(ctx), s3);
    }
  }

  /** The end of a loop. */
  lemma LoopEndRest(st: State, pre: FlowId, top: FlowId, post: FlowId)
    requires Valid(st) && top < |st.graph|
    ensures Rest({pre}, st, Resume(JoinFrom(Join(st, pre), pre, top), post))
    ensures Rest({pre}, st, Resume(JoinFrom(st, pre, top), post))
  {
    hide Rest, Valid, AddAntecedent, Resume;
    Beginning(st);
    JoinRest(st, pre, st.flow);
    RestLength({pre}, st, Join(st, pre));
    JoinRest(Join(st, pre), pre, top);
    RestStep({pre}, st, {pre}, Join(st, pre), {pre}, JoinFrom(Join(st, pre), pre, top));
    RestLength({pre}, st, JoinFrom(Join(st, pre), pre, top));
    ResumeRest(JoinFrom(Join(st, pre), pre, top), post);
    RestStep({pre}, st, {pre}, JoinFrom(Join(st, pre), pre, top), {}, Resume(JoinFrom(Join(st, pre), pre, top), post));
    JoinRest(st, pre, top);
    RestLength({pre}, st, JoinFrom(st, pre, top));
    ResumeRest(JoinFrom(st, pre, top), post);
    RestStep({pre}, st, {pre}, JoinFrom(st, pre, top), {}, Resume(JoinFrom(st, pre, top), post));
  }

  lemma LoopUnder(ctx: Context, post: FlowId, pre: FlowId, size: nat, size': nat)
    requires AllUnder(Targets(ctx), size) && size <= size' && post < size' && pre < size'
    ensures AllUnder(Targets(LoopContext(ctx, post, pre)), size') && AllUnder(Targets(ctx) + {pre, post}, size')
  {
    hide Targets, LoopContext;
    LoopContextTargets(ctx, post, pre);
  }

  lemma {:induction false} WhileEvidence(s: Stmt, ctx: Context, st: State, k: Trail)
    requires s.While? && Trailed(st, BindLive(s, ctx, st), k) && AllUnder(Targets(ctx), |st.graph|) && Distinct(s)
    ensures Guided(GuardsOn(s, k.id), k)
    decreases s, 2
  {
    hide Trailed, Guarding, Targets, Valid, BindStmt, BindCondition, Resume, AddAntecedent, Ids, Distinct, Guided, AllUnder,
         LoopContext;
    TrailValid(st, BindLive(s, ctx, st), k);
    NothingGuided(k);
    var exc, pre, preBody, post := ctx.exceptionTarget, |st.graph|, |st.graph| + 1, |st.graph| + 2;
    var out, inner := BindLive(s, ctx, st), LoopContext(ctx, post, pre);
    var s0 := NewLabels(st, LOOP).(flow := pre);
    var s1 := BindCondition(s.cond, preBody, post, exc, s0);
    var r := Resume(s1, preBody);
    var b := BindStmt(s.body, inner, r);
    if k.id in Ids(s.body) {
      WhileParts(s, ctx, st, s0, s1, r, b);
      ConditionMarks(s.cond, preBody, post, exc, s0);
      DistinctBody(s);
      ResumeMarks(s1, preBody);
      LoopEndMarks(k.id, b, pre, st.flow, post);
      PartEvidence(s.cond, true, preBody, post, exc, s0, s1, r, b, s.body, inner, Targets(ctx) + {pre, post}, st, out, k);
    }
  }

  lemma ResumeMarks(st: State, join: FlowId)
    ensures Resume(st, join).marks == st.marks
  {
  }

  lemma LoopEndMarks(id: nat, st: State, pre: FlowId, top: FlowId, post: FlowId)
    ensures Unmarked(id, st, Resume(JoinFrom(Join(st, pre), pre, top), post))
    ensures Unmarked(id, st, Resume(JoinFrom(st, pre, top), post))
  {
    hide AddAntecedent, FinishFlowLabel;
  }

  lemma DistinctBody(s: Stmt)
    requires Distinct(s) && (s.While? || s.Do? || s.For? || s.ForOf? || s.Labeled?)
    ensures Distinct(s.body)
  {
  }

  lemma WhileParts(s: Stmt, ctx: Context, st: State, s0: State, s1: State, r: State, b: State)
    requires s.While? && Valid(st) && AllUnder(Targets(ctx), |st.graph|)
    requires s0 == NewLabels(st, LOOP).(flow := |st.graph|)
    requires s1 == BindCondition(s.cond, |st.graph| + 1, |st.graph| + 2, ctx.exceptionTarget, s0)
    requires r == Resume(s1, |st.graph| + 1) && b == BindStmt(s.body, LoopContext(ctx, |st.graph| + 2, |st.graph|), r)
    ensures Guarding(s.cond, true, |st.graph| + 1, |st.graph| + 2, ctx.exceptionTarget, s0, s1, r, b, s.body,
                     LoopContext(ctx, |st.graph| + 2, |st.graph|), Targets(ctx) + {|st.graph|, |st.graph| + 2}, st, BindLive(s, ctx, st))
  {
    hide Rest, Targets, Valid, Grows, BindStmt, BindCondition, AddAntecedent, Extends, FinishFlowLabel, Guarding, Resume,
         LoopContext, AllUnder;
    var exc, pre, preBody, post := ctx.exceptionTarget, |st.graph|, |st.graph| + 1, |st.graph| + 2;
    var all, out, inner := Targets(ctx), BindLive(s, ctx, st), LoopContext(ctx, post, pre);
    var late := all + {pre, post};
    Beginning(st);
    LabelsRest(st, s0, LOOP);
    RestLength({}, st, s0);
    ConditionRest(s.cond, preBody, post, exc, s0);
    RestLength({preBody, post} + Optional(exc), s0, s1);
    ResumeRest(s1, preBody);
    RestLength({}, s1, r);
    StmtRest(s.body, inner, r);
    RestLength(Targets(inner), r, b);
    LoopEndRest(b, pre, st.flow, post);
    RestMore(late, s1, {}, r);
    RestMore(late, b, {pre}, out);
    LoopContextTargets(ctx, post, pre);
    RestStep(late, r, Targets(inner), b, late, out);
    LoopUnder(ctx, post, pre, |st.graph|, |s0.graph|);
    GuardingHolds(s.cond, true, preBody, post, exc, s0, s1, r, b, s.body, inner, {pre, post}, ctx, st, out);
  }

  lemma {:induction false} DoEvidence(s: Stmt, ctx: Context, st: State, k: Trail)
    requires s.Do? && Trailed(st, BindLive(s, ctx, st), k) && AllUnder(Targets(ctx), |st.graph|) && Distinct(s)
    ensures Guided(GuardsOn(s, k.id), k)
    decreases s, 2
  {
    hide Trailed, Targets, Valid, BindStmt, BindCondition, Resume, AddAntecedent, Ids, Distinct, Guided, LoopContext,
         Plain;
    TrailValid(st, BindLive(s, ctx, st), k);
    NothingGuided(k);
    var pre, test, post := |st.graph|, |st.graph| + 1, |st.graph| + 2;
    var out, inner := BindLive(s, ctx, st), LoopContext(ctx, post, test);
    var s0 := NewLabels(st, LOOP).(flow := pre);
    var b := BindStmt(s.body, inner, s0);
    if k.id in Ids(s.body) {
      DoParts(s, ctx, st, s0, b);
      DistinctBody(s);
      DoMarks(k.id, b, pre, test, st.flow, post, s.cond, ctx.exceptionTarget);
      PlainEvidence(s0, b, s.body, inner, Targets(ctx) + {pre, post, test}, st, out, k);
      assert {} + GuardsOn(s.body, k.id) == GuardsOn(s.body, k.id);
    }
  }

  lemma DoParts(s: Stmt, ctx: Context, st: State, s0: State, b: State)
    requires s.Do? && Valid(st) && AllUnder(Targets(ctx), |st.graph|) && s0 == NewLabels(st, LOOP).(flow := |st.graph|)
    requires b == BindStmt(s.body, LoopContext(ctx, |st.graph| + 2, |st.graph| + 1), s0)
    ensures Plain(s0, b, s.body, LoopContext(ctx, |st.graph| + 2, |st.graph| + 1),
                  Targets(ctx) + {|st.graph|, |st.graph| + 2, |st.graph| + 1}, st, BindLive(s, ctx, st))
  {
    hide Rest, Targets, Valid, Grows, BindStmt, BindCondition, Resume, AddAntecedent, LoopContext, Extends;
    var exc, pre, test, post := ctx.exceptionTarget, |st.graph|, |st.graph| + 1, |st.graph| + 2;
    var out, inner, all := BindLive(s, ctx, st), LoopContext(ctx, post, test), Targets(ctx) + {pre, post, test};
    Beginning(st);
    LabelsRest(st, s0, LOOP);
    RestLength({}, st, s0);
    StmtRest(s.body, inner, s0);
    RestLength(Targets(inner), s0, b);
    var s1 := Resume(Join(b, test), test);
    JoinResumeRest(b, test, test);
    RestLength({test}, b, s1);
    var s2 := BindCondition(s.cond, pre, post, exc, s1);
    ConditionRest(s.cond, pre, post, exc, s1);
    RestLength({pre, post} + Optional(exc), s1, s2);
    LoopEndRest(s2, pre, st.flow, post);
    OwnTargets(ctx);
    RestStep(all, s1, {pre, post} + Optional(exc), s2, {pre}, out);
    RestStep(all, b, {test}, s1, all, out);
    LoopUnder(ctx, post, test, |st.graph|, |s0.graph|);
  }

  lemma DoMarks(id: nat, b: State, pre: FlowId, test: FlowId, top: FlowId, post: FlowId, cond: Expr, exc: Option<FlowId>)
    ensures var s1 := Resume(Join(b, test), test);
            Unmarked(id, b, Resume(JoinFrom(BindCondition(cond, pre, post, exc, s1), pre, top), post))
  {
    hide AddAntecedent, FinishFlowLabel, BindCondition;
    var s1 := Resume(Join(b, test), test);
    ConditionMarks(cond, pre, post, exc, s1);
    LoopEndMarks(id, BindCondition(cond, pre, post, exc, s1), pre, top, post);
  }

  /** The states while a for statement is bound. */
  predicate ForStates(s: Stmt, ctx: Context, st: State, s0: State, s1: State, t0: State, s2: State, r: State, b: State,
                      s4: State)
    requires s.For?
  {
    var exc, pre, preBody, post := ctx.exceptionTarget, |st.graph|, |st.graph| + 1, |st.graph| + 2;
    && s0 == NewLabels(st, LOOP) && s1 == BindOptional(s.init, exc, s0) && t0 == s1.(flow := pre)
    && s2 == BindOptionalCondition(s.test, preBody, post, exc, t0)
    && r == Resume(s2, preBody) && b == BindStmt(s.body, LoopContext(ctx, post, pre), r)
    && s4 == BindOptional(s.incr, exc, b) && BindLive(s, ctx, st) == Resume(JoinFrom(Join(s4, pre), pre, s1.flow), post)
  }

  lemma ForParts(s: Stmt, ctx: Context, st: State)
    returns (s0: State, s1: State, t0: State, s2: State, r: State, b: State, s4: State)
    requires s.For? && Valid(st) && AllUnder(Targets(ctx), |st.graph|)
    ensures ForStates(s, ctx, st, s0, s1, t0, s2, r, b, s4)
    ensures var pre, preBody, post, inner := |st.graph|, |st.graph| + 1, |st.graph| + 2, LoopContext(ctx, |st.graph| + 2, |st.graph|);
            var late, out := Targets(ctx) + {pre, post}, BindLive(s, ctx, st);
            && Plain(r, b, s.body, inner, late, st, out)
            && (s.test.Some? ==>
                  Guarding(s.test.value, true, preBody, post, ctx.exceptionTarget, t0, s2, r, b, s.body, inner, late, st, out))
  {
    hide Rest, Targets, Valid, Grows, BindStmt, BindCondition, BindOptional, BindOptionalCondition, AddAntecedent, Extends,
         FinishFlowLabel, Guarding, Resume, LoopContext, AllUnder;
    var exc, pre, preBody, post := ctx.exceptionTarget, |st.graph|, |st.graph| + 1, |st.graph| + 2;
    var all, out, inner := Targets(ctx), BindLive(s, ctx, st), LoopContext(ctx, post, pre);
    var late := all + {pre, post};
    Beginning(st);
    s0 := NewLabels(st, LOOP);
    LabelsRest(st, s0, LOOP);
    RestLength({}, st, s0);
    s1 := BindOptional(s.init, exc, s0);
    OptionalRest(s.init, exc, s0);
    RestLength(Optional(exc), s0, s1);
    t0 := s1.(flow := pre);
    MoveRest(s1, t0);
    RestLength({}, s1, t0);
    s2 := BindOptionalCondition(s.test, preBody, post, exc, t0);
    OptionalConditionRest(s.test, preBody, post, exc, t0);
    RestLength({preBody, post} + Optional(exc), t0, s2);
    r := Resume(s2, preBody);
    ResumeRest(s2, preBody);
    RestLength({}, s2, r);
    b := BindStmt(s.body, inner, r);
    StmtRest(s.body, inner, r);
    RestLength(Targets(inner), r, b);
    s4 := BindOptional(s.incr, exc, b);
    OptionalRest(s.incr, exc, b);
    RestLength(Optional(exc), b, s4);
    Beginning(s1);
    LoopEndRest(s4, pre, s1.flow, post);
    ForRests(ctx, pre, post, s2, r, b, s4, out);
    LoopUnder(ctx, post, pre, |st.graph|, |t0.graph|);
    LoopUnder(ctx, post, pre, |st.graph|, |r.graph|);
    if s.test.Some? {
      OldLabel(ctx, st, s0, s1, preBody);
      SomeCondition(s.test.value, preBody, post, exc, t0);
      GuardingHolds(s.test.value, true, preBody, post, exc, t0, s2, r, b, s.body, inner, {pre, post}, ctx, st, out);
    }
  }

  lemma ForRests(ctx: Context, pre: FlowId, post: FlowId, s2: State, r: State, b: State, s4: State, out: State)
    requires Rest({}, s2, r) && Rest(Targets(LoopContext(ctx, post, pre)), r, b)
    requires Rest(Optional(ctx.exceptionTarget), b, s4)
    requires Rest({pre}, s4, out)
    ensures var late := Targets(ctx) + {pre, post};
            Rest(late, s2, r) && Rest(late, r, out) && Rest(late, b, out)
  {
    hide Rest, Targets, LoopContext;
    var late := Targets(ctx) + {pre, post};
    LoopContextTargets(ctx, post, pre);
    OwnTargets(ctx);
    RestStep(late, b, Optional(ctx.exceptionTarget), s4, {pre}, out);
    RestStep(late, r, Targets(LoopContext(ctx, post, pre)), b, late, out);
    RestMore(late, s2, {}, r);
  }

  lemma SomeCondition(e: Expr, t: FlowId, f: FlowId, exc: Option<FlowId>, st: State)
    ensures BindOptionalCondition(Some(e), t, f, exc, st) == BindCondition(e, t, f, exc, st)
  {
  }

  /** An exception target that is older than a label leaves the label alone. */
  lemma OldLabel(ctx: Context, st: State, s0: State, s1: State, target: FlowId)
    requires AllUnder(Targets(ctx), |st.graph|) && |st.graph| <= target < |s0.graph|
    requires Grows(Optional(ctx.exceptionTarget), s0, s1)
    ensures target < |s1.graph| && s1.graph[target] == s0.graph[target]
  {
    assert ctx.exceptionTarget.Some? ==> ctx.exceptionTarget.value in Targets(ctx);
  }

  lemma {:induction false} ForEvidence(s: Stmt, ctx: Context, st: State, k: Trail)
    requires s.For? && Trailed(st, BindLive(s, ctx, st), k) && AllUnder(Targets(ctx), |st.graph|) && Distinct(s)
    ensures Guided(GuardsOn(s, k.id), k)
    decreases s, 2
  {
    hide Trailed, Guarding, Targets, Valid, BindLive, Ids, Distinct, Guided, Unmarked, AllUnder, Plain, ForStates;
    TrailValid(st, BindLive(s, ctx, st), k);
    NothingGuided(k);
    if k.id in Ids(s.body) {
      var pre, preBody, post := |st.graph|, |st.graph| + 1, |st.graph| + 2;
      var s0, s1, t0, s2, r, b, s4 := ForParts(s, ctx, st);
      var late, out, inner := Targets(ctx) + {pre, post}, BindLive(s, ctx, st), LoopContext(ctx, post, pre);
      ForMarked(k.id, s, ctx, st, s0, s1, t0, s2, r, b, s4);
      DistinctBody(s);
      if s.test.Some? {
        PartEvidence(s.test.value, true, preBody, post, ctx.exceptionTarget, t0, s2, r, b, s.body, inner, late, st, out, k);
      } else {
        PlainEvidence(r, b, s.body, inner, late, st, out, k);
        assert {} + GuardsOn(s.body, k.id) == GuardsOn(s.body, k.id);
      }
    }
  }

  lemma ForMarked(id: nat, s: Stmt, ctx: Context, st: State, s0: State, s1: State, t0: State, s2: State, r: State,
                  b: State,
                  s4: State)
    requires s.For? && ForStates(s, ctx, st, s0, s1, t0, s2, r, b, s4)
    ensures Unmarked(id, st, r) && Unmarked(id, b, BindLive(s, ctx, st))
  {
    hide BindStmt, BindOptional, BindOptionalCondition, AddAntecedent, FinishFlowLabel, LoopContext;
    OptionalMarks(s.init, ctx.exceptionTarget, s0);
    OptionalConditionMarks(s.test, |st.graph| + 1, |st.graph| + 2, ctx.exceptionTarget, t0);
    OptionalMarks(s.incr, ctx.exceptionTarget, b);
    LoopEndMarks(id, s4, |st.graph|, s1.flow, |st.graph| + 2);
  }

  lemma {:induction false} LabeledEvidence(s: Stmt, ctx: Context, st: State, k: Trail)
    requires s.Labeled? && Trailed(st, BindLive(s, ctx, st), k) && AllUnder(Targets(ctx), |st.graph|) && Distinct(s)
    ensures Guided(GuardsOn(s, k.id), k)
    decreases s, 2
  {
    hide Trailed, Rest, Targets, Valid, Grows, BindStmt, Resume, AddAntecedent, Ids, Distinct, Guided, LabelContext,
         Extends;
    TrailValid(st, BindLive(s, ctx, st), k);
    NothingGuided(k);
    var out, post := BindLive(s, ctx, st), |st.graph|;
    var inner, late := LabelContext(ctx, s.name, post), Targets(ctx) + {post};
    var s0 := NewNode(st, BranchLabel([]));
    LabelsRest(st, s0, [BranchLabel([])]);
    RestLength({}, st, s0);
    var b := BindStmt(s.body, inner, s0);
    StmtRest(s.body, inner, s0);
    RestLength(Targets(inner), s0, b);
    JoinResumeRest(b, post, post);
    RestMore(late, b, {post}, out);
    LabelContextTargets(ctx, s.name, post);
    if k.id in Ids(s.body) {
      DistinctBody(s);
      assert Unmarked(k.id, b, out) by { ResumeMarks(Join(b, post), post); }
      PlainEvidence(s0, b, s.body, inner, late, st, out, k);
      assert {} + GuardsOn(s.body, k.id) == GuardsOn(s.body, k.id);
    }
  }

  lemma {:induction false} ForOfEvidence(s: Stmt, ctx: Context, st: State, k: Trail)
    requires s.ForOf? && Trailed(st, BindLive(s, ctx, st), k) && AllUnder(Targets(ctx), |st.graph|) && Distinct(s)
    ensures Guided(GuardsOn(s, k.id), k)
    decreases s, 2
  {
    hide Trailed, Targets, Valid, BindLive, Ids, Distinct, Guided, Unmarked, AllUnder, Plain, ForOfStates, Enclosed;
    TrailValid(st, BindLive(s, ctx, st), k);
    NothingGuided(k);
    if k.id in Ids(s.body) {
      var pre, post := |st.graph|, |st.graph| + 1;
      var s0, s1, t1, s2, b := ForOfParts(s, ctx, st);
      ForOfMarked(k.id, s, ctx, st, s0, s1, t1, s2, b);
      DistinctBody(s);
      PlainEvidence(s2, b, s.body, LoopContext(ctx, post, pre), Targets(ctx) + {pre, post}, st, BindLive(s, ctx, st), k);
      IteratedPart(s.target, st, s2, b, BindLive(s, ctx, st), k);
      GuidedBoth({Iterated(s.target)}, GuardsOn(s.body, k.id), k);
    }
  }

  /** The states while a for-of statement is bound. */
  predicate ForOfStates(s: Stmt, ctx: Context, st: State, s0: State, s1: State, t1: State, s2: State, b: State)
    requires s.ForOf?
  {
    var exc, pre, post := ctx.exceptionTarget, |st.graph|, |st.graph| + 1;
    && s0 == NewLabels(st, [LoopLabel([]), BranchLabel([])]) && s1 == BindExpr(s.expr, AsValue, exc, s0)
    && t1 == Join(s1.(flow := pre), post) && s2 == Mutate(t1, exc, s.target)
    && b == BindStmt(s.body, LoopContext(ctx, post, pre), s2)
    && BindLive(s, ctx, st) == Resume(JoinFrom(Join(b, pre), pre, s1.flow), post)
  }

  /** The flow into the part is an assignment that is still there. */
  predicate Assigning(x: string, st: State, r: State, out: State) {
    |st.graph| <= r.flow < |out.graph| && out.graph[r.flow].Assignment? && out.graph[r.flow].target == x
  }

  lemma IteratedPart(x: string, st: State, r: State, end: State, out: State, k: Trail)
    requires Trailed(st, out, k) && Trailed(r, end, k) && Enclosed(r, {}, end) && Assigning(x, st, r, out)
    ensures Guided({Iterated(x)}, k)
  {
    hide Enclosed, Stems, Valid, Extends;
    TrailInside(r, end, k);
    NothingStems(k.w.graph);
    var j, env, more := PassesEntry(r, {}, end, k.w, k.from, map[], k.path);
    var rest := k.path[j..];
    assert k.w.graph[r.flow] == out.graph[r.flow] && rest != [];
    assert Steps(k.w.graph, r.flow, rest) == Steps(k.w.graph, rest[0], rest[1..]) + [Stored(x)];
  }

  lemma ForOfParts(s: Stmt, ctx: Context, st: State) returns (s0: State, s1: State, t1: State, s2: State, b: State)
    requires s.ForOf? && Valid(st) && AllUnder(Targets(ctx), |st.graph|)
    ensures ForOfStates(s, ctx, st, s0, s1, t1, s2, b)
    ensures Plain(s2, b, s.body, LoopContext(ctx, |st.graph| + 1, |st.graph|), Targets(ctx) + {|st.graph|, |st.graph| + 1}, st,
                  BindLive(s, ctx, st))
    ensures Assigning(s.target, st, s2, BindLive(s, ctx, st))
  {
    hide Rest, Targets, Valid, Grows, BindStmt, BindExpr, AddAntecedent, Extends, Resume, LoopContext, AllUnder, Mutate;
    var exc, pre, post := ctx.exceptionTarget, |st.graph|, |st.graph| + 1;
    var out, inner, late := BindLive(s, ctx, st), LoopContext(ctx, post, pre), Targets(ctx) + {pre, post};
    Beginning(st);
    s0 := NewLabels(st, [LoopLabel([]), BranchLabel([])]);
    LabelsRest(st, s0, [LoopLabel([]), BranchLabel([])]);
    RestLength({}, st, s0);
    s1 := BindExpr(s.expr, AsValue, exc, s0);
    ExprRest(s.expr, exc, s0);
    RestLength(Optional(exc), s0, s1);
    Beginning(s1);
    var t0 := s1.(flow := pre);
    MoveRest(s1, t0);
    RestLength({}, s1, t0);
    t1 := Join(t0, post);
    JoinRest(t0, post, pre);
    RestLength({post}, t0, t1);
    s2 := Mutate(t1, exc, s.target);
    MutateRest(t1, exc, s.target);
    RestLength(Optional(exc), t1, s2);
    b := BindStmt(s.body, inner, s2);
    StmtRest(s.body, inner, s2);
    RestLength(Targets(inner), s2, b);
    LoopEndRest(b, pre, s1.flow, post);
    RestLength({pre}, b, out);
    RestMore(late, b, {pre}, out);
    LoopUnder(ctx, post, pre, |st.graph|, |s2.graph|);
    MutateNode(t1, exc, s.target, s2);
    NodeKept(s2, b, Targets(inner), s2.flow);
    NodeKept(b, out, {pre}, s2.flow);
  }

  lemma MutateNode(st: State, exc: Option<FlowId>, x: string, s2: State)
    requires Valid(st) && s2 == Mutate(st, exc, x)
    ensures |st.graph| <= s2.flow < |s2.graph| && s2.graph[s2.flow].Assignment? && s2.graph[s2.flow].target == x
  {
  }

  lemma NodeKept(a: State, b: State, targets: set<FlowId>, n: FlowId)
    requires Grows(targets, a, b) && n < |a.graph| && a.graph[n].Assignment?
    ensures n < |b.graph| && b.graph[n] == a.graph[n]
  {
    assert Refines(a.graph[n], b.graph[n]);
  }

  lemma ForOfMarked(id: nat, s: Stmt, ctx: Context, st: State, s0: State, s1: State, t1: State, s2: State, b: State)
    requires s.ForOf? && ForOfStates(s, ctx, st, s0, s1, t1, s2, b)
    ensures Unmarked(id, st, s2) && Unmarked(id, b, BindLive(s, ctx, st))
  {
    hide BindStmt, BindExpr, AddAntecedent, FinishFlowLabel, LoopContext;
    ExprMarks(s.expr, AsValue, ctx.exceptionTarget, s0);
    LoopEndMarks(id, b, |st.graph|, s1.flow, |st.graph| + 1);
  }

  // ----- lists of statements -----

  /** The node is inside one of the functions that a block declares. */
  predicate InFunctions(ss: seq<Stmt>, id: nat) {
    ss != [] && ((ss[0].Function? && id in Ids(ss[0])) || InFunctions(ss[1..], id))
  }

  lemma HeadGuards(ss: seq<Stmt>, id: nat)
    requires DistinctSeq(ss) && ss != [] && id in Ids(ss[0])
    ensures GuardsOnSeq(ss, id) == GuardsOn(ss[0], id)
  {
    hide Ids, Distinct, GuardsOn;
    NoGuards(ss[1..], id);
    assert {} + GuardsOn(ss[0], id) + {} == GuardsOn(ss[0], id);
  }

  lemma {:induction false} NoGuardsInFunctions(ss: seq<Stmt>, id: nat)
    requires DistinctSeq(ss) && InFunctions(ss, id)
    ensures GuardsOnSeq(ss, id) == {} && id in IdsSeq(ss)
  {
    hide Ids, Distinct;
    if ss[0].Function? && id in Ids(ss[0]) {
      HeadGuards(ss, id);
      NoGuardsOnFunction(ss[0], id);
    } else {
      NoGuardsInFunctions(ss[1..], id);
    }
  }

  lemma {:induction false} OtherFunctionsMarks(id: nat, ss: seq<Stmt>, st: State)
    requires !InFunctions(ss, id)
    ensures Unmarked(id, st, BindFunctions(ss, st))
    decreases ss
  {
    hide Ids, BindContainer;
    if ss != [] {
      if ss[0].Function? {
        ContainerMarks(id, ss[0], st);
      }
      OtherFunctionsMarks(id, ss[1..], if ss[0].Function? then BindContainer(ss[0], st) else st);
    }
  }

  lemma {:induction false} BlockEvidence(ss: seq<Stmt>, ctx: Context, st: State, k: Trail)
    requires Trailed(st, BindBlock(ss, ctx, st), k) && AllUnder(Targets(ctx), |st.graph|) && DistinctSeq(ss)
    ensures Guided(GuardsOnSeq(ss, k.id), k)
    decreases ss, 2
  {
    hide Trailed, Rest, Enclosed, Valid, Grows, Targets, AllUnder, BindFunctions, BindOthers, BindDeads, DistinctSeq, Extends,
         Guided, Unmarked;
    var out := BindBlock(ss, ctx, st);
    TrailValid(st, out, k);
    BlockRest(ss, ctx, st);
    TrailLive(st, out, k);
    if InFunctions(ss, k.id) {
      NoGuardsInFunctions(ss, k.id);
      NothingGuided(k);
    } else {
      var s1 := BindFunctions(ss, st);
      FunctionsRest(ss, st);
      RestLength({}, st, s1);
      OtherFunctionsMarks(k.id, ss, st);
      OthersRest(ss, ctx, s1);
      LaterTrailed(st, s1, out, Targets(ctx), k);
      GuardingUnder(Targets(ctx), |st.graph|, |s1.graph|);
      OthersEvidence(ss, ctx, s1, k);
    }
  }

  /** The end of what is bound. */
  lemma LaterTrailed(st: State, s1: State, out: State, targets: set<FlowId>, k: Trail)
    requires Trailed(st, out, k) && Valid(s1) && |st.graph| <= |s1.graph| && Rest(targets, s1, out)
    requires Unmarked(k.id, st, s1)
    ensures Trailed(s1, out, k)
  {
    hide Trailed, Valid, Grows, Kept, Unmarked;
    TrailValid(st, out, k);
    RestLength(targets, s1, out);
    RestBegin({}, out);
    PartKept(st, s1, out, out, {}, k.w);
    assert Unmarked(k.id, out, out) by { NothingMarked(k.id, out); }
    PartTrailed(st, s1, out, out, k);
  }

  lemma NothingMarked(id: nat, st: State)
    ensures Unmarked(id, st, st)
  {
  }

  lemma {:induction false} OthersEvidence(ss: seq<Stmt>, ctx: Context, st: State, k: Trail)
    requires Trailed(st, BindOthers(ss, ctx, st), k) && AllUnder(Targets(ctx), |st.graph|) && DistinctSeq(ss)
    ensures Guided(GuardsOnSeq(ss, k.id), k)
    decreases ss, 1
  {
    hide Trailed, Rest, Enclosed, Valid, Grows, Targets, AllUnder, BindStmt, Ids, Distinct, Extends, Guided, Unmarked,
         GuardsOn;
    TrailValid(st, BindOthers(ss, ctx, st), k);
    NothingGuided(k);
    if ss != [] {
      var out, s1 := BindOthers(ss, ctx, st), if ss[0].Function? then st else BindStmt(ss[0], ctx, st);
      if ss[0].Function? {
        NoGuardsOnFunction(ss[0], k.id);
        NothingMarked(k.id, st);
        RestBegin(Targets(ctx), st);
      } else {
        StmtRest(ss[0], ctx, st);
      }
      RestLength(Targets(ctx), st, s1);
      OthersRest(ss[1..], ctx, s1);
      if k.id in Ids(ss[0]) {
        HeadGuards(ss, k.id);
        if !ss[0].Function? {
          OthersMarks(k.id, ss[1..], ctx, s1);
          NothingMarked(k.id, st);
          PlainEvidence(st, s1, ss[0], ctx, Targets(ctx), st, out, k);
        }
      } else {
        if !ss[0].Function? {
          StmtMarks(k.id, ss[0], ctx, st);
        }
        LaterTrailed(st, s1, out, Targets(ctx), k);
        GuardingUnder(Targets(ctx), |st.graph|, |s1.graph|);
        OthersEvidence(ss[1..], ctx, s1, k);
        assert GuardsOnSeq(ss, k.id) == GuardsOnSeq(ss[1..], k.id);
      }
    }
  }

  lemma {:induction false} EachEvidence(ss: seq<Stmt>, ctx: Context, st: State, k: Trail)
    requires Trailed(st, BindEach(ss, ctx, st), k) && AllUnder(Targets(ctx), |st.graph|) && DistinctSeq(ss)
    ensures Guided(GuardsOnSeq(ss, k.id), k)
    decreases ss, 1
  {
    hide Trailed, Rest, Enclosed, Valid, Grows, Targets, AllUnder, BindStmt, Ids, Distinct, Extends, Guided, Unmarked,
         GuardsOn;
    TrailValid(st, BindEach(ss, ctx, st), k);
    NothingGuided(k);
    if ss != [] {
      var out, s1 := BindEach(ss, ctx, st), BindStmt(ss[0], ctx, st);
      StmtRest(ss[0], ctx, st);
      RestLength(Targets(ctx), st, s1);
      EachRest(ss[1..], ctx, s1);
      if k.id in Ids(ss[0]) {
        HeadGuards(ss, k.id);
        EachMarks(k.id, ss[1..], ctx, s1);
        NothingMarked(k.id, st);
        PlainEvidence(st, s1, ss[0], ctx, Targets(ctx), st, out, k);
      } else {
        StmtMarks(k.id, ss[0], ctx, st);
        LaterTrailed(st, s1, out, Targets(ctx), k);
        GuardingUnder(Targets(ctx), |st.graph|, |s1.graph|);
        EachEvidence(ss[1..], ctx, s1, k);
        assert GuardsOnSeq(ss, k.id) == GuardsOnSeq(ss[1..], k.id);
      }
    }
  }

  // ----- try -----

  /** A block that is part of a statement. */
  ghost predicate PlainBlock(r: State, end: State, ss: seq<Stmt>, inner: Context, late: set<FlowId>, st: State,
                             out: State) {
    && Valid(r) && |st.graph| <= |r.graph| && end == BindBlock(ss, inner, r) && AllUnder(Targets(inner), |r.graph|)
    && Grows(late, end, out) && AllUnder(late, |r.graph|) && Apart(r, end, out)
  }

  lemma {:induction false} PlainBlockEvidence(r: State, end: State, ss: seq<Stmt>, inner: Context, late: set<FlowId>,
                                              st: State,
                                              out: State, k: Trail)
    requires PlainBlock(r, end, ss, inner, late, st, out)
    requires Trailed(st, out, k) && DistinctSeq(ss) && Unmarked(k.id, st, r) && Unmarked(k.id, end, out)
    ensures Guided(GuardsOnSeq(ss, k.id), k)
    decreases ss, 3
  {
    hide Trailed, Kept, Rest, Targets, Valid, Grows, Enclosed, BindBlock, DistinctSeq, Extends, Guided, GuardsOnSeq, Unmarked,
         AllUnder, Apart;
    TrailValid(st, out, k);
    BlockRest(ss, inner, r);
    RestLength(Targets(inner), r, end);
    ApartKept(st, r, end, out, late, k.w);
    PartTrailed(st, r, end, out, k);
    BlockEvidence(ss, inner, r, k);
  }

  lemma RestPlain(r: State, end: State, ss: seq<Stmt>, inner: Context, late: set<FlowId>, st: State, out: State)
    requires Valid(r) && |st.graph| <= |r.graph| && end == BindBlock(ss, inner, r)
    requires AllUnder(Targets(inner), |r.graph|)
    requires Rest(late, end, out) && AllUnder(late, |r.graph|)
    ensures PlainBlock(r, end, ss, inner, late, st, out)
  {
    hide Targets, Valid, Grows, BindBlock, AllUnder;
  }

  /** The reduce labels that leave a finally block. */
  lemma LeaveReduces(ctx: Context, st: State, finallyLabel: FlowId, normal: seq<FlowId>, exceptional: seq<FlowId>,
                     returning: seq<FlowId>)
    ensures var out := LeaveFinally(ctx, st, finallyLabel, normal, exceptional, returning);
            NewReduce(finallyLabel, st, out) && |st.graph| <= |out.graph|
  {
    hide AddReduced, NewReduce, Dead;
    NothingReduces(finallyLabel, st, st.(flow := UNREACHABLE_FLOW));
    if !Dead(st) {
      var s1 := AddReduced(st, ctx.returnTarget, finallyLabel, returning);
      AddReducedReduces(st, ctx.returnTarget, finallyLabel, returning);
      var s2 := AddReduced(s1, ctx.exceptionTarget, finallyLabel, exceptional);
      AddReducedReduces(s1, ctx.exceptionTarget, finallyLabel, exceptional);
      NewReduceBoth(finallyLabel, st, s1, s2);
      NothingReduces(finallyLabel, s2, s2.(flow := UNREACHABLE_FLOW));
      NewReduceBoth(finallyLabel, st, s2, s2.(flow := UNREACHABLE_FLOW));
      var s3 := NewNode(s2, ReduceLabel(finallyLabel, normal, s2.flow)).(flow := |s2.graph|);
      OneReduces(finallyLabel, s2, s3, normal);
      NewReduceBoth(finallyLabel, st, s2, s3);
    }
  }

  ghost predicate NewReduce(finallyLabel: FlowId, a: State, b: State) {
    && |a.graph| <= |b.graph|
    && (forall i :: |a.graph| <= i < |b.graph| && b.graph[i].ReduceLabel? ==> b.graph[i].finallyLabel == finallyLabel)
    && (forall i :: 0 <= i < |a.graph| && b.graph[i].ReduceLabel? ==> b.graph[i] == a.graph[i])
  }

  lemma NewReduceBoth(finallyLabel: FlowId, a: State, b: State, c: State)
    requires NewReduce(finallyLabel, a, b) && NewReduce(finallyLabel, b, c)
    ensures NewReduce(finallyLabel, a, c)
  {
  }

  lemma NothingReduces(finallyLabel: FlowId, a: State, b: State)
    requires a.graph == b.graph
    ensures NewReduce(finallyLabel, a, b)
  {
  }

  lemma OneReduces(finallyLabel: FlowId, a: State, b: State, list: seq<FlowId>)
    requires b.graph == a.graph + [ReduceLabel(finallyLabel, list, a.flow)]
    ensures NewReduce(finallyLabel, a, b) && |a.graph| <= |b.graph|
  {
  }

  lemma AddReducedReduces(st: State, target: Option<FlowId>, finallyLabel: FlowId, list: seq<FlowId>)
    ensures NewReduce(finallyLabel, st, AddReduced(st, target, finallyLabel, list))
    ensures |st.graph| <= |AddReduced(st, target, finallyLabel, list).graph|
  {
  }

  /** The state in which the finally block is bound. */
  function FinallyEntry(s: Stmt, ctx: Context, st: State): State
    requires s.Try?
  {
    var g := BindGuarded(s, ctx, st);
    NewNode(SealParts(g.state, |st.graph|, g.exceptions, |st.graph| + 1),
            FinallyLabel(Antecedents(g.state.graph, |st.graph|)
                         + (Antecedents(g.state.graph, g.exceptions) + Antecedents(g.state.graph, |st.graph| + 1))))
    .(flow := |g.state.graph|)
  }

  /** The state at the end of the finally block. */
  function FinalizerEnd(s: Stmt, ctx: Context, st: State): State
    requires s.Try? && s.finalizer.SomeBlock?
  {
    BindBlock(s.finalizer.statements, ctx, FinallyEntry(s, ctx, st))
  }

  /** The finalizer of a try statement. */
  predicate FinallyStates(s: Stmt, ctx: Context, st: State, g: Guarded, f0: State, f1: State)
    requires s.Try? && s.finalizer.SomeBlock?
  {
    var normal, exceptional, returning :=
      Antecedents(g.state.graph, |st.graph|), Antecedents(g.state.graph, g.exceptions), Antecedents(g.state.graph, |st.graph| + 1);
    && g == BindGuarded(s, ctx, st) && f0 == FinallyEntry(s, ctx, st) && f1 == FinalizerEnd(s, ctx, st)
    && BindTry(s, ctx, st) == LeaveFinally(ctx, f1, |g.state.graph|, normal, exceptional, returning)
  }

  lemma FinallyParts(s: Stmt, ctx: Context, st: State) returns (g: Guarded, f0: State, f1: State)
    requires s.Try? && s.finalizer.SomeBlock? && Valid(st)
    ensures FinallyStates(s, ctx, st, g, f0, f1)
    ensures Rest(Targets(ctx), g.state, BindTry(s, ctx, st)) && Rest({}, g.state, f0) && Rest(Targets(ctx), f0, f1)
    ensures Grows(Targets(ctx), f1, BindTry(s, ctx, st)) && Apart(f0, f1, BindTry(s, ctx, st))
    ensures Enclosed(f0, {}, f1)
  {
    hide Rest, Targets, Valid, Grows, BindBlock, BindGuarded, LeaveFinally, Extends, Enclosed, Antecedents;
    g := BindGuarded(s, ctx, st);
    GuardedGrows(s, ctx, st);
    var normal, exceptional, returning :=
      Antecedents(g.state.graph, |st.graph|), Antecedents(g.state.graph, g.exceptions), Antecedents(g.state.graph, |st.graph| + 1);
    f0 := FinallyEntry(s, ctx, st);
    f1 := FinalizerEnd(s, ctx, st);
    AntecedentsInRange(g.state, |st.graph|);
    AntecedentsInRange(g.state, g.exceptions);
    AntecedentsInRange(g.state, |st.graph| + 1);
    AppendRest(g.state, f0, FinallyLabel(normal + (exceptional + returning)));
    RestLength({}, g.state, f0);
    BlockRest(s.finalizer.statements, ctx, f0);
    RestLength(Targets(ctx), f0, f1);
    RestStep(Targets(ctx), g.state, {}, f0, Targets(ctx), f1);
    LeaveRest(ctx, g.state, f0, f1, normal, exceptional, returning);
  }

  lemma AppendRest(a: State, b: State, n: FlowNode)
    requires Valid(a) && b.graph == a.graph + [n] && b.marks == a.marks && b.flow < |b.graph| && n.FinallyLabel?
    requires forall x :: x in n.antecedents ==> x < |a.graph|
    ensures Rest({}, a, b)
  {
    hide Grows;
    AppendGrows(a, b, [n]);
  }

  lemma LeaveRest(ctx: Context, gs: State, f0: State, f1: State, normal: seq<FlowId>, exceptional: seq<FlowId>,
                  returning: seq<FlowId>)
    requires Rest(Targets(ctx), gs, f1) && |f0.graph| == |gs.graph| + 1 && Rest(Targets(ctx), f0, f1)
    ensures var out := LeaveFinally(ctx, f1, |gs.graph|, normal, exceptional, returning);
            Rest(Targets(ctx), gs, out) && Grows(Targets(ctx), f1, out) && Apart(f0, f1, out)
  {
    hide Targets, Valid, LeaveFinally;
    var out := LeaveFinally(ctx, f1, |gs.graph|, normal, exceptional, returning);
    LeaveFinallyGrows(ctx, f1, |gs.graph|, normal, exceptional, returning);
    LeaveReduces(ctx, f1, |gs.graph|, normal, exceptional, returning);
    Begin(Targets(ctx), gs);
    FlowGrowth.Step(Targets(ctx), gs, gs, Targets(ctx), f1);
    FlowGrowth.Step(Targets(ctx), gs, f1, Targets(ctx), out);
  }

  lemma {:induction false} FinalizerEvidence(s: Stmt, ctx: Context, st: State, k: Trail)
    requires s.Try? && s.finalizer.SomeBlock? && Trailed(st, BindTry(s, ctx, st), k)
    requires AllUnder(Targets(ctx), |st.graph|)
    requires DistinctSeq(s.finalizer.statements) && k.id !in IdsSeq(s.block) && k.id !in IdsBlock(s.handler)
    ensures Guided(GuardsOnSeq(s.finalizer.statements, k.id), k)
    decreases s.finalizer.statements, 4
  {
    hide Trailed, Rest, Targets, Valid, Grows, BindBlock, BindGuarded, BindTry, LeaveFinally, Extends, Enclosed, Antecedents,
         AllUnder, Apart, DistinctSeq, GuardsOnSeq, Guided, IdsSeq;
    TrailValid(st, BindTry(s, ctx, st), k);
    var g, f0, f1 := FinallyParts(s, ctx, st);
    GuardedLonger(s, ctx, st);
    RestLength({}, g.state, f0);
    GuardingUnder(Targets(ctx), |st.graph|, |f0.graph|);
    GuardedMarks(k.id, s, ctx, st);
    var normal, exceptional, returning :=
      Antecedents(g.state.graph, |st.graph|), Antecedents(g.state.graph, g.exceptions), Antecedents(g.state.graph, |st.graph| + 1);
    LeaveMarks(ctx, f1, |g.state.graph|, normal, exceptional, returning);
    PlainBlockEvidence(f0, f1, s.finalizer.statements, ctx, Targets(ctx), st, BindTry(s, ctx, st), k);
  }

  lemma GuardedLonger(s: Stmt, ctx: Context, st: State)
    requires s.Try? && Valid(st)
    ensures |st.graph| <= |BindGuarded(s, ctx, st).state.graph|
  {
    hide BindGuarded, Valid, Grows;
    GuardedGrows(s, ctx, st);
    GrowsExtends(Targets(ctx), st, BindGuarded(s, ctx, st).state);
  }

  lemma GuardedMarks(id: nat, s: Stmt, ctx: Context, st: State)
    requires s.Try? && id !in IdsSeq(s.block) && id !in IdsBlock(s.handler)
    ensures Unmarked(id, st, BindGuarded(s, ctx, st).state)
  {
    hide BindBlock, AddAntecedent, FinishFlowLabel, TryContext, IdsSeq;
    var returned, exceptions := |st.graph| + 1, |st.graph| + 2;
    var e0 := Join(NewLabels(st, BRANCHES), exceptions);
    BlockMarks(id, s.block, TryContext(s, ctx, returned, exceptions), e0);
    var s1 := BindTryBlock(s, ctx, st);
    if s.handler.SomeBlock? {
      var c0 := Resume(s1, exceptions);
      BlockMarks(id, s.handler.statements, TryContext(s, ctx, returned, |c0.graph|), Join(NewNode(c0, BranchLabel([])), |c0.graph|));
    }
  }

  lemma AfterGuarded(s: Stmt, ctx: Context, st: State)
    requires s.Try? && Valid(st)
    ensures Rest(Targets(ctx), BindGuarded(s, ctx, st).state, BindTry(s, ctx, st))
  {
    hide Rest, Targets, Valid, Grows, BindBlock, BindGuarded, LeaveFinally, Resume;
    if s.finalizer.SomeBlock? {
      var g, f0, f1 := FinallyParts(s, ctx, st);
    } else {
      GuardedGrows(s, ctx, st);
      ResumeRest(BindGuarded(s, ctx, st).state, |st.graph|);
      RestMore(Targets(ctx), BindGuarded(s, ctx, st).state, {}, BindTry(s, ctx, st));
    }
  }

  lemma TryMarksAfter(id: nat, s: Stmt, ctx: Context, st: State)
    requires s.Try? && id !in IdsBlock(s.finalizer)
    ensures Unmarked(id, BindGuarded(s, ctx, st).state, BindTry(s, ctx, st))
  {
    hide BindGuarded, LeaveFinally, FinishFlowLabel, BindBlock;
    if s.finalizer.SomeBlock? {
      FinallyMarks(id, s, ctx, st, BindGuarded(s, ctx, st));
    }
  }

  /** The states while the try block is bound. */
  predicate BlockStates(s: Stmt, ctx: Context, st: State, e0: State, b: State)
    requires s.Try?
  {
    && e0 == Join(NewLabels(st, BRANCHES), |st.graph| + 2)
    && b == BindBlock(s.block, TryContext(s, ctx, |st.graph| + 1, |st.graph| + 2), e0)
    && BindTryBlock(s, ctx, st) == Join(b, |st.graph|)
  }

  /** The states while the catch clause is bound, after the try block. */
  predicate HandlerStates(s: Stmt, ctx: Context, st: State, b: State, c0: State, c1: State, h: State)
    requires s.Try? && s.handler.SomeBlock?
  {
    && c0 == Resume(Join(b, |st.graph|), |st.graph| + 2) && c1 == Join(NewNode(c0, BranchLabel([])), |c0.graph|)
    && h == BindBlock(s.handler.statements, TryContext(s, ctx, |st.graph| + 1, |c0.graph|), c1)
    && BindGuarded(s, ctx, st) == Guarded(Join(h, |st.graph|), |c0.graph|)
  }

  lemma BlockParts(s: Stmt, ctx: Context, st: State) returns (e0: State, b: State)
    requires s.Try? && Valid(st)
    ensures BlockStates(s, ctx, st, e0, b) && Valid(e0) && |st.graph| + 3 == |e0.graph| && Valid(b)
    ensures |e0.graph| <= |b.graph|
    ensures Rest(Targets(TryContext(s, ctx, |st.graph| + 1, |st.graph| + 2)), e0, b)
  {
    hide Rest, Targets, Valid, Grows, BindBlock, AddAntecedent, TryContext, Extends;
    Beginning(st);
    var g0 := NewLabels(st, BRANCHES);
    LabelsRest(st, g0, BRANCHES);
    RestLength({}, st, g0);
    e0 := Join(g0, |st.graph| + 2);
    JoinFromGrows(g0, |st.graph| + 2, g0.flow);
    var inner := TryContext(s, ctx, |st.graph| + 1, |st.graph| + 2);
    b := BindBlock(s.block, inner, e0);
    BlockRest(s.block, inner, e0);
    RestLength(Targets(inner), e0, b);
  }

  lemma HandlerParts(s: Stmt, ctx: Context, st: State, e0: State, b: State) returns (c0: State, c1: State, h: State)
    requires s.Try? && s.handler.SomeBlock? && BlockStates(s, ctx, st, e0, b) && Valid(b) && |st.graph| + 3 <= |b.graph|
    ensures HandlerStates(s, ctx, st, b, c0, c1, h) && Valid(c1) && |c1.graph| == |b.graph| + 1 == |c0.graph| + 1
    ensures Rest({|st.graph|, |c0.graph|}, b, c1)
    ensures Rest(Targets(TryContext(s, ctx, |st.graph| + 1, |c0.graph|)), c1, h)
    ensures Rest({|st.graph|}, h, BindGuarded(s, ctx, st).state)
  {
    hide Rest, Targets, Valid, Grows, BindBlock, AddAntecedent, TryContext, Extends, Resume;
    var exit, exceptions := |st.graph|, |st.graph| + 2;
    c0 := Resume(Join(b, exit), exceptions);
    JoinResumeRest(b, exit, exceptions);
    RestLength({exit}, b, c0);
    ResumeLength(b, exit, exceptions);
    var n0 := NewNode(c0, BranchLabel([]));
    Beginning(c0);
    LabelsRest(c0, n0, [BranchLabel([])]);
    RestLength({}, c0, n0);
    c1 := Join(n0, |c0.graph|);
    JoinRest(n0, |c0.graph|, n0.flow);
    JoinFromGrows(n0, |c0.graph|, n0.flow);
    RestStep({exit, |c0.graph|}, b, {exit}, c0, {}, n0);
    RestStep({exit, |c0.graph|}, b, {exit, |c0.graph|}, n0, {|c0.graph|}, c1);
    var inner := TryContext(s, ctx, |st.graph| + 1, |c0.graph|);
    h := BindBlock(s.handler.statements, inner, c1);
    BlockRest(s.handler.statements, inner, c1);
    RestLength(Targets(inner), c1, h);
    Beginning(h);
    JoinRest(h, exit, h.flow);
  }

  lemma ResumeLength(st: State, join: FlowId, next: FlowId)
    ensures |Resume(Join(st, join), next).graph| == |st.graph|
  {
  }

  lemma TryUnder(s: Stmt, ctx: Context, returned: FlowId, exceptions: FlowId, exit: FlowId, size: nat, size': nat)
    requires s.Try? && AllUnder(Targets(ctx), size) && size <= size' && returned < size' && exceptions < size'
    requires exit < size'
    ensures AllUnder(Targets(TryContext(s, ctx, returned, exceptions)), size')
    ensures AllUnder(Targets(ctx) + {exit, returned, exceptions}, size')
  {
    hide Targets, TryContext;
    TryContextTargets(s, ctx, returned, exceptions);
  }

  /** From the end of the try block on. */
  lemma AfterBlock(s: Stmt, ctx: Context, st: State, e0: State, b: State)
    requires s.Try? && Valid(st) && BlockStates(s, ctx, st, e0, b) && Valid(b) && |st.graph| + 3 <= |b.graph|
    ensures Rest(Targets(ctx) + {|st.graph|, |st.graph| + 1, |st.graph| + 2}, b, BindTry(s, ctx, st))
  {
    hide Rest, Targets, Valid, Grows, BindBlock, AddAntecedent, TryContext, Extends, BindTry;
    var late := Targets(ctx) + {|st.graph|, |st.graph| + 1, |st.graph| + 2};
    AfterGuarded(s, ctx, st);
    if s.handler.NoBlock? {
      Beginning(b);
      JoinRest(b, |st.graph|, b.flow);
      RestStep(late, b, {|st.graph|}, Join(b, |st.graph|), Targets(ctx), BindTry(s, ctx, st));
    } else {
      hide BindGuarded;
      var c0, c1, h := HandlerParts(s, ctx, st, e0, b);
      var inner := TryContext(s, ctx, |st.graph| + 1, |c0.graph|);
      TryContextTargets(s, ctx, |st.graph| + 1, |c0.graph|);
      RestStep(late, b, {|st.graph|, |c0.graph|}, c1, Targets(inner), h);
      RestStep(late, b, late, h, {|st.graph|}, BindGuarded(s, ctx, st).state);
      RestStep(late, b, late, BindGuarded(s, ctx, st).state, Targets(ctx), BindTry(s, ctx, st));
    }
  }

  lemma {:induction false} TryBlockEvidence(s: Stmt, ctx: Context, st: State, k: Trail)
    requires s.Try? && Trailed(st, BindTry(s, ctx, st), k) && AllUnder(Targets(ctx), |st.graph|)
    requires DistinctSeq(s.block) && k.id !in IdsBlock(s.handler) && k.id !in IdsBlock(s.finalizer)
    ensures Guided(GuardsOnSeq(s.block, k.id), k)
    decreases s.block, 4
  {
    hide Trailed, Rest, Targets, Valid, Grows, BindGuarded, BindTry, BlockStates, TryContext, AllUnder, Apart, DistinctSeq,
         GuardsOnSeq, Guided, IdsBlock, Unmarked, PlainBlock;
    TrailValid(st, BindTry(s, ctx, st), k);
    var e0, b := BlockParts(s, ctx, st);
    AfterBlock(s, ctx, st, e0, b);
    BlockMarked(k.id, s, ctx, st, e0, b);
    TryUnder(s, ctx, |st.graph| + 1, |st.graph| + 2, |st.graph|, |st.graph|, |e0.graph|);
    var inner := TryContext(s, ctx, |st.graph| + 1, |st.graph| + 2);
    var late := Targets(ctx) + {|st.graph|, |st.graph| + 1, |st.graph| + 2};
    BlockIs(s, ctx, st, e0, b);
    RestPlain(e0, b, s.block, inner, late, st, BindTry(s, ctx, st));
    PlainBlockEvidence(e0, b, s.block, inner, late, st, BindTry(s, ctx, st), k);
  }

  lemma BlockIs(s: Stmt, ctx: Context, st: State, e0: State, b: State)
    requires s.Try? && BlockStates(s, ctx, st, e0, b)
    ensures b == BindBlock(s.block, TryContext(s, ctx, |st.graph| + 1, |st.graph| + 2), e0)
  {
  }

  lemma BlockMarked(id: nat, s: Stmt, ctx: Context, st: State, e0: State, b: State)
    requires s.Try? && BlockStates(s, ctx, st, e0, b) && id !in IdsBlock(s.handler) && id !in IdsBlock(s.finalizer)
    ensures Unmarked(id, st, e0) && Unmarked(id, b, BindTry(s, ctx, st))
  {
    hide BindBlock, AddAntecedent, FinishFlowLabel, TryContext, IdsSeq, BindTry;
    TryMarksAfter(id, s, ctx, st);
    if s.handler.SomeBlock? {
      var c0 := Resume(Join(b, |st.graph|), |st.graph| + 2);
      BlockMarks(id, s.handler.statements, TryContext(s, ctx, |st.graph| + 1, |c0.graph|), Join(NewNode(c0, BranchLabel([])), |c0.graph|));
    }
  }

  lemma {:induction false} HandlerEvidence(s: Stmt, ctx: Context, st: State, k: Trail)
    requires s.Try? && s.handler.SomeBlock? && Trailed(st, BindTry(s, ctx, st), k) && AllUnder(Targets(ctx), |st.graph|)
    requires DistinctSeq(s.handler.statements) && k.id !in IdsSeq(s.block) && k.id !in IdsBlock(s.finalizer)
    ensures Guided(GuardsOnSeq(s.handler.statements, k.id), k)
    decreases s.handler.statements, 4
  {
    hide Trailed, Rest, Targets, Valid, Grows, BindGuarded, BindTry, BlockStates, HandlerStates, TryContext, AllUnder, Apart,
         DistinctSeq, GuardsOnSeq, Guided, IdsSeq, IdsBlock, Unmarked, PlainBlock;
    TrailValid(st, BindTry(s, ctx, st), k);
    var e0, b := BlockParts(s, ctx, st);
    var c0, c1, h := HandlerParts(s, ctx, st, e0, b);
    AfterGuarded(s, ctx, st);
    HandlerMarked(k.id, s, ctx, st, e0, b, c0, c1, h);
    TryUnder(s, ctx, |st.graph| + 1, |c0.graph|, |st.graph|, |st.graph|, |c1.graph|);
    var inner := TryContext(s, ctx, |st.graph| + 1, |c0.graph|);
    var late := Targets(ctx) + {|st.graph|, |st.graph| + 1, |c0.graph|};
    RestStep(late, h, {|st.graph|}, BindGuarded(s, ctx, st).state, Targets(ctx), BindTry(s, ctx, st));
    RestPlain(c1, h, s.handler.statements, inner, late, st, BindTry(s, ctx, st));
    PlainBlockEvidence(c1, h, s.handler.statements, inner, late, st, BindTry(s, ctx, st), k);
  }

  lemma HandlerMarked(id: nat, s: Stmt, ctx: Context, st: State, e0: State, b: State, c0: State, c1: State, h: State)
    requires s.Try? && s.handler.SomeBlock? && BlockStates(s, ctx, st, e0, b) && HandlerStates(s, ctx, st, b, c0, c1, h)
    requires id !in IdsSeq(s.block) && id !in IdsBlock(s.finalizer)
    ensures Unmarked(id, st, c1) && Unmarked(id, h, BindTry(s, ctx, st))
    ensures h == BindBlock(s.handler.statements, TryContext(s, ctx, |st.graph| + 1, |c0.graph|), c1)
  {
    hide BindBlock, AddAntecedent, FinishFlowLabel, TryContext, IdsSeq, BindTry, BindGuarded;
    TryMarksAfter(id, s, ctx, st);
    BlockMarks(id, s.block, TryContext(s, ctx, |st.graph| + 1, |st.graph| + 2), e0);
  }

  lemma {:induction false} TryEvidence(s: Stmt, ctx: Context, st: State, k: Trail)
    requires s.Try? && Trailed(st, BindTry(s, ctx, st), k) && AllUnder(Targets(ctx), |st.graph|) && Distinct(s)
    ensures Guided(GuardsOn(s, k.id), k)
    decreases s, 2
  {
    hide Trailed, Targets, BindTry, AllUnder, DistinctSeq, GuardsOnSeq, Guided, IdsSeq;
    NothingGuided(k);
    if k.id !in IdsSeq(s.block) {
      NoGuards(s.block, k.id);
    }
    if k.id !in IdsBlock(s.handler) && s.handler.SomeBlock? {
      NoGuards(s.handler.statements, k.id);
    }
    if k.id !in IdsBlock(s.finalizer) && s.finalizer.SomeBlock? {
      NoGuards(s.finalizer.statements, k.id);
    }
    if k.id in IdsSeq(s.block) {
      TryBlockEvidence(s, ctx, st, k);
      assert GuardsOn(s, k.id) == GuardsOnSeq(s.block, k.id);
    } else if k.id in IdsBlock(s.handler) {
      HandlerEvidence(s, ctx, st, k);
      assert GuardsOn(s, k.id) == GuardsOnSeq(s.handler.statements, k.id);
    } else if k.id in IdsBlock(s.finalizer) {
      FinalizerEvidence(s, ctx, st, k);
      assert GuardsOn(s, k.id) == GuardsOnSeq(s.finalizer.statements, k.id);
    } else {
      assert GuardsOn(s, k.id) == {};
    }
  }

  // ----- switch -----

  lemma EnterGroupRest(s: Stmt, start: nat, end: nat, pre: FlowId, fall: FlowId, st: State)
    requires s.Switch? && Valid(st) && pre < |st.graph| && fall < |st.graph|
    ensures Rest({}, st, EnterGroup(s, start, end, pre, fall, st))
  {
    hide Valid, Grows, FinishFlowLabel, IsNarrowingSwitch;
    EnterGroupGrows(s, start, end, pre, fall, st);
  }

  lemma DeadsRest(ss: seq<Stmt>, st: State)
    requires Valid(st)
    ensures Rest({}, st, BindDeads(ss, st)) && Enclosed(st, {}, BindDeads(ss, st))
  {
    hide Valid, Grows, Enclosed, BindDeads;
    Beginning(st);
    DeadsGrow(ss, st);
    DeadsEnclosed(st, {}, ss, st);
    EnclosedRest({}, st, BindDeads(ss, st));
  }

  /** The state in which the statements of a clause are bound. */
  function ClauseEntry(c: Clause, pre: FlowId, ctx: Context, st: State): State {
    if Dead(st) || c.test.None? then st
    else BindExpr(c.test.value, AsValue, ctx.exceptionTarget, st.(flow := pre)).(flow := st.flow)
  }

  lemma ClauseRest(c: Clause, pre: FlowId, ctx: Context, st: State)
    requires Valid(st) && pre < |st.graph|
    ensures var e, out := ClauseEntry(c, pre, ctx, st), BindClause(c, pre, ctx, st);
            && Rest(Targets(ctx), st, e) && Rest(Targets(ctx), e, out) && Enclosed(e, {}, out) && e.marks == st.marks
            && e.flow == st.flow && (Dead(st) ==> Dead(e)) && (!Dead(st) ==> out == BindEach(c.body, ctx, e))
  {
    hide Rest, Targets, Valid, Grows, Enclosed, BindExpr, BindDeads, BindEach, Extends;
    Beginning(st);
    RestBegin(Targets(ctx), st);
    var e := ClauseEntry(c, pre, ctx, st);
    if Dead(st) {
      DeadsRest(c.body, st);
      RestMore(Targets(ctx), st, {}, BindDeads(c.body, st));
    } else {
      if c.test.Some? {
        TestRest(c.test.value, pre, ctx, st);
      }
      RestLength(Targets(ctx), st, e);
      EachRest(c.body, ctx, e);
    }
  }

  lemma TestRest(test: Expr, pre: FlowId, ctx: Context, st: State)
    requires Valid(st) && pre < |st.graph|
    ensures var e := BindExpr(test, AsValue, ctx.exceptionTarget, st.(flow := pre)).(flow := st.flow);
            Rest(Targets(ctx), st, e) && e.marks == st.marks
  {
    hide Rest, Targets, Valid, Grows, BindExpr, Extends;
    var a := st.(flow := pre);
    var b := BindExpr(test, AsValue, ctx.exceptionTarget, a);
    Beginning(st);
    MoveRest(st, a);
    RestLength({}, st, a);
    ExprRest(test, ctx.exceptionTarget, a);
    ExprMarks(test, AsValue, ctx.exceptionTarget, a);
    RestLength(Optional(ctx.exceptionTarget), a, b);
    MoveRest(b, b.(flow := st.flow));
    OwnTargets(ctx);
    RestStep(Targets(ctx), st, {}, a, Optional(ctx.exceptionTarget), b);
    RestStep(Targets(ctx), st, Targets(ctx), b, {}, b.(flow := st.flow));
  }

  predicate SharesNext(rest: seq<Clause>) {
    |rest| > 1 && rest[0].body == []
  }

  /** The state in which the first of the remaining clauses is bound. */
  function BeforeClause(s: Stmt, rest: seq<Clause>, start: nat, pre: FlowId, fall: FlowId, st: State): State
    requires s.Switch? && 0 < |rest| <= |s.clauses|
  {
    if !SharesNext(rest) then EnterGroup(s, start, |s.clauses| - |rest| + 1, pre, fall, st)
    else if fall == UNREACHABLE_FLOW then st.(flow := pre) else st
  }

  lemma BeforeClauseRest(s: Stmt, rest: seq<Clause>, start: nat, pre: FlowId, fall: FlowId, st: State)
    requires s.Switch? && 0 < |rest| <= |s.clauses| && Valid(st) && pre < |st.graph| && fall < |st.graph|
    ensures Rest({}, st, BeforeClause(s, rest, start, pre, fall, st))
    ensures BeforeClause(s, rest, start, pre, fall, st).marks == st.marks
  {
    hide Rest, Valid, EnterGroup;
    if !SharesNext(rest) {
      EnterGroupRest(s, start, |s.clauses| - |rest| + 1, pre, fall, st);
      EnterMarks(s, start, |s.clauses| - |rest| + 1, pre, fall, st);
    } else {
      RestBegin({}, st);
      MoveRest(st, st.(flow := pre));
    }
  }

  /** One clause and the others. */
  lemma ClausesAre(s: Stmt, rest: seq<Clause>, start: nat, pre: FlowId, fall: FlowId, ctx: Context, st: State)
    requires s.Switch? && 0 < |rest| <= |s.clauses|
    ensures var c := BindClause(rest[0], pre, ctx, BeforeClause(s, rest, start, pre, fall, st));
            BindClauses(s, rest, start, pre, fall, ctx, st)
            == BindClauses(s, rest[1..], if SharesNext(rest) then start else |s.clauses| - |rest| + 1, pre,
                           if SharesNext(rest) then fall else c.flow, ctx, c)
  {
    hide BindClause, EnterGroup;
  }

  lemma {:induction false} ClausesRest(s: Stmt, rest: seq<Clause>, start: nat, pre: FlowId, fall: FlowId, ctx: Context,
                                       st: State)
    requires s.Switch? && |rest| <= |s.clauses| && Valid(st) && pre < |st.graph| && fall < |st.graph|
    ensures Rest(Targets(ctx), st, BindClauses(s, rest, start, pre, fall, ctx, st))
    decreases rest
  {
    hide Rest, Targets, Valid, Grows, Enclosed, BindClause, ClauseEntry, BeforeClause, Extends;
    var all := Targets(ctx);
    RestBegin(all, st);
    if rest != [] {
      hide BindClauses;
      var r := BeforeClause(s, rest, start, pre, fall, st);
      var c := BindClause(rest[0], pre, ctx, r);
      ClauseStep(s, rest, start, pre, fall, ctx, st);
      ClausesAre(s, rest, start, pre, fall, ctx, st);
      var start', fall' := if SharesNext(rest) then start else |s.clauses| - |rest| + 1, if SharesNext(rest) then fall else c.flow;
      ClausesRest(s, rest[1..], start', pre, fall', ctx, c);
      RestStep(all, st, all, c, all, BindClauses(s, rest[1..], start', pre, fall', ctx, c));
    }
  }

  /** The first of the remaining clauses. */
  lemma ClauseStep(s: Stmt, rest: seq<Clause>, start: nat, pre: FlowId, fall: FlowId, ctx: Context, st: State)
    requires s.Switch? && 0 < |rest| <= |s.clauses| && Valid(st) && pre < |st.graph| && fall < |st.graph|
    ensures var r := BeforeClause(s, rest, start, pre, fall, st);
            var e, c := ClauseEntry(rest[0], pre, ctx, r), BindClause(rest[0], pre, ctx, r);
            && Rest(Targets(ctx), st, e) && Rest(Targets(ctx), r, e) && Rest(Targets(ctx), e, c)
            && Rest(Targets(ctx), st, c)
            && Enclosed(e, {}, c) && e.marks == st.marks && e.flow == r.flow
            && |st.graph| <= |r.graph| <= |e.graph| <= |c.graph|
            && Valid(r) && Valid(c) && c.flow < |c.graph| && (Dead(r) ==> Dead(e)) && (!Dead(r) ==> c == BindEach(rest[0].body, ctx, e))
  {
    hide Rest, Targets, Valid, Grows, Enclosed, BindClause, BindEach, ClauseEntry, BeforeClause, Extends;
    var all, r := Targets(ctx), BeforeClause(s, rest, start, pre, fall, st);
    var e, c := ClauseEntry(rest[0], pre, ctx, r), BindClause(rest[0], pre, ctx, r);
    BeforeClauseRest(s, rest, start, pre, fall, st);
    RestLength({}, st, r);
    ClauseRest(rest[0], pre, ctx, r);
    RestStep(all, st, {}, r, all, e);
    RestStep(all, st, all, e, all, c);
    RestLength(all, r, e);
    RestLength(all, e, c);
    Beginning(c);
  }

  /** The clauses from `start` on share the statements of a clause that is not before `next`. */
  predicate GroupOpen(clauses: seq<Clause>, start: nat, next: nat) {
    && start <= next <= |clauses|
    && (forall i: nat :: start <= i < next ==> clauses[i].body == [])
    && (0 < start < |clauses| ==> clauses[start - 1].body != [])
  }

  /** Every walk from the flow that falls into a group goes through an earlier group. */
  ghost predicate FallShows(w: World, s: Stmt, start: nat, fall: FlowId)
    requires s.Switch?
  {
    IsNarrowingSwitch(s.expr) ==>
      forall env, path :: Stems(w.graph, env) && IsWalk(w, fall, env, path) ==>
        EntersBefore(s.id, s.clauses, start, Steps(w.graph, fall, path))
  }

  /** What a group is entered from. */
  predicate Entry(s: Stmt, start: nat, end: nat, pre: FlowId, fall: FlowId, g: Graph, preCase: FlowId, a: FlowId)
    requires s.Switch?
  {
    || a == fall
    || (a == preCase + 1 < |g| && g[a] == SwitchClause(s.id, start, end, pre))
    || !IsNarrowingSwitch(s.expr)
  }

  lemma EnterGroupShape(s: Stmt, start: nat, end: nat, pre: FlowId, fall: FlowId, st: State)
    requires s.Switch? && Valid(st) && pre < |st.graph| && fall < |st.graph|
    ensures var r, preCase := EnterGroup(s, start, end, pre, fall, st), |st.graph|;
            && IsJoin(r.graph, preCase) && r.flow == FinishFlowLabel(r.graph, preCase)
            && forall a :: a in Antecedents(r.graph, preCase) ==> Entry(s, start, end, pre, fall, r.graph, preCase, a)
  {
    hide IsNarrowingSwitch;
  }

  /** A clause that is bound from `e` to `c` after its group was entered from `st` to `r`. */
  ghost predicate GroupBound(s: Stmt, start: nat, end: nat, pre: FlowId, fall: FlowId, st: State, r: State, e: State,
                             c: State,
                             w: World)
    requires s.Switch?
  {
    && Enclosed(e, {}, c) && Kept(e, c, w) && e.flow == FinishFlowLabel(r.graph, |st.graph|)
    && Completed(w, r.graph, |st.graph|) && 0 < end && GroupOpen(s.clauses, start, end - 1) && end <= |s.clauses|
    && (end < |s.clauses| ==> s.clauses[end - 1].body != []) && FallShows(w, s, start, fall)
    && forall a :: a in Antecedents(r.graph, |st.graph|) ==> Entry(s, start, end, pre, fall, w.graph, |st.graph|, a)
  }

  lemma GroupShows(s: Stmt, start: nat, end: nat, pre: FlowId, fall: FlowId, st: State, r: State, e: State, c: State,
                   w: World,
                   n: FlowId, env: Env, path: seq<FlowId>)
    requires s.Switch? && GroupBound(s, start, end, pre, fall, st, r, e, c, w) && IsNarrowingSwitch(s.expr)
    requires Inside(e, n) && n < |c.graph| && Stems(w.graph, env) && IsWalk(w, n, env, path)
    ensures EntersBefore(s.id, s.clauses, end, Steps(w.graph, n, path))
  {
    hide Enclosed, Stems, Valid, FinishFlowLabel, FlowGuards.Settled, Extends, IsNarrowingSwitch, IsWalk, Steps,
         EntersBefore;
    var j, env', more := PassesEntry(e, {}, c, w, n, env, path);
    SettledNodes(e, c, w.graph);
    var a, rest := FromLabel(w, r.graph, |st.graph|, env', path[j..]);
    if a == fall {
      EntersMore(s.id, s.clauses, start, end, Steps(w.graph, a, rest), more);
    } else {
      EnteredHere(s, start, end, pre, w, a, env', rest);
      EntersMore(s.id, s.clauses, end, end, Steps(w.graph, a, rest), more);
    }
  }

  lemma EntersMore(id: nat, clauses: seq<Clause>, end: nat, end': nat, steps: seq<Step>, more: seq<Step>)
    requires EntersBefore(id, clauses, end, steps) && end <= end'
    ensures EntersBefore(id, clauses, end', steps + more)
  {
    var lo: nat, hi: nat :| IsGroup(clauses, lo, hi) && hi <= end && InClauses(id, lo, hi) in steps;
    assert InClauses(id, lo, hi) in steps + more;
  }

  lemma EnteredHere(s: Stmt, start: nat, end: nat, pre: FlowId, w: World, a: FlowId, env: Env, path: seq<FlowId>)
    requires s.Switch? && 0 < end <= |s.clauses| && GroupOpen(s.clauses, start, end - 1)
    requires end < |s.clauses| ==> s.clauses[end - 1].body != []
    requires a < |w.graph| && w.graph[a] == SwitchClause(s.id, start, end, pre) && IsWalk(w, a, env, path)
    ensures EntersBefore(s.id, s.clauses, end, Steps(w.graph, a, path))
  {
    assert path != [];
    assert Steps(w.graph, a, path) == Steps(w.graph, path[0], path[1..]) + [InClauses(s.id, start, end)];
    assert IsGroup(s.clauses, start, end) && InClauses(s.id, start, end) in Steps(w.graph, a, path);
  }

  /** What is known between two clauses. */
  ghost predicate BetweenClauses(s: Stmt, rest: seq<Clause>, start: nat, pre: FlowId, fall: FlowId, ctx: Context,
                                 st: State,
                                 out: State, w: World)
    requires s.Switch? && |rest| <= |s.clauses|
  {
    && Valid(st) && pre < |st.graph| && fall < |st.graph| && AllUnder(Targets(ctx), |st.graph|)
    && rest == s.clauses[|s.clauses| - |rest|..] && GroupOpen(s.clauses, start, |s.clauses| - |rest|)
    && FallShows(w, s, start, fall) && Kept(st, out, w) && out == BindClauses(s, rest, start, pre, fall, ctx, st)
  }

  lemma ClauseBound(s: Stmt, rest: seq<Clause>, start: nat, pre: FlowId, fall: FlowId, ctx: Context, st: State,
                    out: State, w: World)
    requires s.Switch? && 0 < |rest| <= |s.clauses| && BetweenClauses(s, rest, start, pre, fall, ctx, st, out, w)
    ensures var r := BeforeClause(s, rest, start, pre, fall, st);
            var e, c := ClauseEntry(rest[0], pre, ctx, r), BindClause(rest[0], pre, ctx, r);
            && Kept(e, c, w)
            && (!SharesNext(rest) ==> GroupBound(s, start, |s.clauses| - |rest| + 1, pre, fall, st, r, e, c, w))
  {
    hide Rest, Targets, Valid, Grows, Enclosed, BindClause, BindEach, ClauseEntry, EnterGroup, Extends, BindClauses, Kept, AllUnder,
         Completed, FallShows;
    var all, end := Targets(ctx), |s.clauses| - |rest| + 1;
    var r := BeforeClause(s, rest, start, pre, fall, st);
    var e, c := ClauseEntry(rest[0], pre, ctx, r), BindClause(rest[0], pre, ctx, r);
    ClauseStep(s, rest, start, pre, fall, ctx, st);
    ClausesAre(s, rest, start, pre, fall, ctx, st);
    var start', fall' := if SharesNext(rest) then start else end, if SharesNext(rest) then fall else c.flow;
    ClausesRest(s, rest[1..], start', pre, fall', ctx, c);
    RestLength(all, e, c);
    GuardingUnder(all, |st.graph|, |e.graph|);
    PartKept(st, e, c, out, all, w);
    if !SharesNext(rest) {
      RestStep(all, r, all, e, all, c);
      RestStep(all, r, all, c, all, out);
      EnterGroupRest(s, start, end, pre, fall, st);
      EnterGroupShape(s, start, end, pre, fall, st);
      EntryKept(s, start, end, pre, fall, st, r, out, all, w);
    }
  }

  lemma EntryKept(s: Stmt, start: nat, end: nat, pre: FlowId, fall: FlowId, st: State, r: State, out: State,
                  targets: set<FlowId>,
                  w: World)
    requires s.Switch? && Kept(st, out, w) && Rest({}, st, r) && Rest(targets, r, out) && AllUnder(targets, |st.graph|)
    requires IsJoin(r.graph, |st.graph|)
    requires forall a :: a in Antecedents(r.graph, |st.graph|) ==> Entry(s, start, end, pre, fall, r.graph, |st.graph|, a)
    ensures Completed(w, r.graph, |st.graph|)
    ensures forall a :: a in Antecedents(r.graph, |st.graph|) ==> Entry(s, start, end, pre, fall, w.graph, |st.graph|, a)
  {
    hide Valid, LaterReduces, IsNarrowingSwitch;
    assert r.graph[|st.graph|] == out.graph[|st.graph|] == w.graph[|st.graph|];
    forall a | a in Antecedents(r.graph, |st.graph|)
      ensures Entry(s, start, end, pre, fall, w.graph, |st.graph|, a)
    {
      if a == |st.graph| + 1 && a < |r.graph| {
        assert r.graph[a] == out.graph[a] == w.graph[a];
      }
    }
  }

  lemma NextClauses(s: Stmt, rest: seq<Clause>, start: nat, pre: FlowId, fall: FlowId, ctx: Context, st: State,
                    out: State, w: World)
    requires s.Switch? && 0 < |rest| <= |s.clauses| && BetweenClauses(s, rest, start, pre, fall, ctx, st, out, w)
    ensures var c := BindClause(rest[0], pre, ctx, BeforeClause(s, rest, start, pre, fall, st));
            Kept(c, out, w) ==>
              BetweenClauses(s, rest[1..], if SharesNext(rest) then start else |s.clauses| - |rest| + 1, pre,
                             if SharesNext(rest) then fall else c.flow, ctx, c, out, w)
  {
    hide Targets, Valid, Grows, Enclosed, BindClause, BindEach, ClauseEntry, BeforeClause, Extends, BindClauses, Kept, GroupBound,
         Rest, AllUnder, FallShows;
    var n, c := |s.clauses| - |rest|, BindClause(rest[0], pre, ctx, BeforeClause(s, rest, start, pre, fall, st));
    ClauseStep(s, rest, start, pre, fall, ctx, st);
    ClausesAre(s, rest, start, pre, fall, ctx, st);
    GuardingUnder(Targets(ctx), |st.graph|, |c.graph|);
    assert rest[1..] == s.clauses[n + 1..] && rest[0] == s.clauses[n];
    if !SharesNext(rest) {
      ClauseBound(s, rest, start, pre, fall, ctx, st, out, w);
      GroupFalls(s, start, n + 1, pre, fall, ctx, st, rest, w);
    }
  }

  lemma GroupFalls(s: Stmt, start: nat, end: nat, pre: FlowId, fall: FlowId, ctx: Context, st: State, rest: seq<Clause>,
                   w: World)
    requires s.Switch? && 0 < |rest| <= |s.clauses|
    requires var r := BeforeClause(s, rest, start, pre, fall, st);
             GroupBound(s, start, end, pre, fall, st, r, ClauseEntry(rest[0], pre, ctx, r), BindClause(rest[0], pre, ctx, r), w)
    ensures FallShows(w, s, end, BindClause(rest[0], pre, ctx, BeforeClause(s, rest, start, pre, fall, st)).flow)
  {
    hide GroupBound, Enclosed, BindClause, ClauseEntry, BeforeClause, IsWalk, Steps, Stems, EntersBefore,
         IsNarrowingSwitch;
    var r := BeforeClause(s, rest, start, pre, fall, st);
    var e, c := ClauseEntry(rest[0], pre, ctx, r), BindClause(rest[0], pre, ctx, r);
    assert Enclosed(e, {}, c) by { BoundEnclosed(s, start, end, pre, fall, st, r, e, c, w); }
    EnclosedLength(e, {}, c);
    forall env, path | IsNarrowingSwitch(s.expr) && Stems(w.graph, env) && IsWalk(w, c.flow, env, path)
      ensures EntersBefore(s.id, s.clauses, end, Steps(w.graph, c.flow, path))
    {
      GroupShows(s, start, end, pre, fall, st, r, e, c, w, c.flow, env, path);
    }
  }

  lemma BoundEnclosed(s: Stmt, start: nat, end: nat, pre: FlowId, fall: FlowId, st: State, r: State, e: State, c: State,
                      w: World)
    requires s.Switch? && GroupBound(s, start, end, pre, fall, st, r, e, c, w)
    ensures Enclosed(e, {}, c)
  {
  }

  lemma {:induction false} ClausesEvidence(s: Stmt, rest: seq<Clause>, start: nat, pre: FlowId, fall: FlowId,
                                           ctx: Context,
                                           st: State, k: Trail)
    requires s.Switch? && |rest| <= |s.clauses| && DistinctClauses(rest)
    requires BetweenClauses(s, rest, start, pre, fall, ctx, st, BindClauses(s, rest, start, pre, fall, ctx, st), k.w)
    requires Trailed(st, BindClauses(s, rest, start, pre, fall, ctx, st), k)
    ensures Guided(GuardsOnClauses(s, rest, k.id), k)
    decreases rest, 2
  {
    hide Trailed, Targets, Valid, Grows, Enclosed, BindClause, BindEach, ClauseEntry, BeforeClause, Extends, BindClauses, Kept,
         GroupBound, Rest, AllUnder, FallShows, BetweenClauses, IdsSeq, DistinctSeq, Guided, GuardsOnSeq, Unmarked;
    NothingGuided(k);
    if rest != [] {
      var out, r := BindClauses(s, rest, start, pre, fall, ctx, st), BeforeClause(s, rest, start, pre, fall, st);
      var e, c := ClauseEntry(rest[0], pre, ctx, r), BindClause(rest[0], pre, ctx, r);
      BetweenFacts(s, rest, start, pre, fall, ctx, st, out, k.w);
      ClauseStep(s, rest, start, pre, fall, ctx, st);
      ClausesAre(s, rest, start, pre, fall, ctx, st);
      var start', fall' := if SharesNext(rest) then start else |s.clauses| - |rest| + 1, if SharesNext(rest) then fall else c.flow;
      if k.id in IdsSeq(rest[0].body) {
        ClausesMarks(k.id, s, rest[1..], start', pre, fall', ctx, c);
        ClauseEvidence(s, rest, start, pre, fall, ctx, st, k);
        NoGuardsClauses(s, rest[1..], k.id);
        OnlyClause(s, rest, k.id);
      } else {
        ClauseMarks(k.id, rest[0], pre, ctx, r);
        BeforeClauseRest(s, rest, start, pre, fall, st);
        SameMarks(k.id, st, r, c);
        ClausesRest(s, rest[1..], start', pre, fall', ctx, c);
        LaterTrailed(st, c, out, Targets(ctx), k);
        TrailValid(c, out, k);
        NextClauses(s, rest, start, pre, fall, ctx, st, out, k.w);
        ClausesEvidence(s, rest[1..], start', pre, fall', ctx, c, k);
        assert GuardsOnClauses(s, rest, k.id) == GuardsOnClauses(s, rest[1..], k.id);
      }
    }
  }

  lemma SameMarks(id: nat, a: State, b: State, c: State)
    requires a.marks == b.marks && Unmarked(id, b, c)
    ensures Unmarked(id, a, c)
  {
  }

  lemma OnlyClause(s: Stmt, rest: seq<Clause>, id: nat)
    requires s.Switch? && 0 < |rest| <= |s.clauses| && id in IdsSeq(rest[0].body)
    requires GuardsOnClauses(s, rest[1..], id) == {}
    ensures GuardsOnClauses(s, rest, id)
         == {Chosen(s.id, s.expr, s.clauses, |s.clauses| - |rest|)} + GuardsOnSeq(rest[0].body, id)
  {
    hide IdsSeq, GuardsOnSeq;
  }

  lemma BetweenFacts(s: Stmt, rest: seq<Clause>, start: nat, pre: FlowId, fall: FlowId, ctx: Context, st: State,
                     out: State, w: World)
    requires s.Switch? && |rest| <= |s.clauses| && BetweenClauses(s, rest, start, pre, fall, ctx, st, out, w)
    ensures Valid(st) && pre < |st.graph| && fall < |st.graph| && AllUnder(Targets(ctx), |st.graph|) && Kept(st, out, w)
  {
  }

  lemma {:induction false} ClauseEvidence(s: Stmt, rest: seq<Clause>, start: nat, pre: FlowId, fall: FlowId,
                                          ctx: Context,
                                          st: State, k: Trail)
    requires s.Switch? && 0 < |rest| <= |s.clauses| && DistinctClauses(rest) && k.id in IdsSeq(rest[0].body)
    requires var out := BindClauses(s, rest, start, pre, fall, ctx, st);
             && BetweenClauses(s, rest, start, pre, fall, ctx, st, out, k.w) && Trailed(st, out, k)
             && Unmarked(k.id, BindClause(rest[0], pre, ctx, BeforeClause(s, rest, start, pre, fall, st)), out)
    ensures Guided({Chosen(s.id, s.expr, s.clauses, |s.clauses| - |rest|)} + GuardsOnSeq(rest[0].body, k.id), k)
    decreases rest, 1
  {
    hide Trailed, Targets, Valid, Grows, Enclosed, BindClause, BindEach, ClauseEntry, BeforeClause, Extends, BindClauses, Kept,
         GroupBound, Rest, AllUnder, FallShows, BetweenClauses, DistinctSeq, Guided, GuardsOnSeq, Unmarked, Dead;
    var out, r := BindClauses(s, rest, start, pre, fall, ctx, st), BeforeClause(s, rest, start, pre, fall, st);
    var e, c := ClauseEntry(rest[0], pre, ctx, r), BindClause(rest[0], pre, ctx, r);
    BetweenFacts(s, rest, start, pre, fall, ctx, st, out, k.w);
    ClauseStep(s, rest, start, pre, fall, ctx, st);
    ClauseBound(s, rest, start, pre, fall, ctx, st, out, k.w);
    assert !SharesNext(rest);
    assert Unmarked(k.id, st, e) by { NothingNew(k.id, st, e); }
    PartTrailed(st, e, c, out, k);
    TrailLive(e, c, k);
    GuardingUnder(Targets(ctx), |st.graph|, |e.graph|);
    EachEvidence(rest[0].body, ctx, e, k);
    ChosenShown(s, start, |s.clauses| - |rest| + 1, pre, fall, st, r, e, c, k);
    GuidedBoth({Chosen(s.id, s.expr, s.clauses, |s.clauses| - |rest|)}, GuardsOnSeq(rest[0].body, k.id), k);
  }

  lemma NothingNew(id: nat, a: State, b: State)
    requires a.marks == b.marks
    ensures Unmarked(id, a, b)
  {
  }

  lemma ChosenShown(s: Stmt, start: nat, end: nat, pre: FlowId, fall: FlowId, st: State, r: State, e: State, c: State,
                    k: Trail)
    requires s.Switch? && GroupBound(s, start, end, pre, fall, st, r, e, c, k.w) && Trailed(e, c, k) && end > 0
    ensures Guided({Chosen(s.id, s.expr, s.clauses, end - 1)}, k)
  {
    hide GroupBound, Trailed, Enclosed, IsNarrowingSwitch, EntersBefore;
    BoundEnclosed(s, start, end, pre, fall, st, r, e, c, k.w);
    TrailInside(e, c, k);
    NothingStems(k.w.graph);
    if IsNarrowingSwitch(s.expr) {
      GroupShows(s, start, end, pre, fall, st, r, e, c, k.w, k.from, map[], k.path);
    }
  }

  lemma {:induction false} SwitchEvidence(s: Stmt, ctx: Context, st: State, k: Trail)
    requires s.Switch? && Trailed(st, BindSwitch(s, ctx, st), k) && AllUnder(Targets(ctx), |st.graph|) && Distinct(s)
    ensures Guided(GuardsOn(s, k.id), k)
    decreases s, 2
  {
    hide Trailed, Targets, Valid, BindExpr, BindSwitch, BindClauses, BindDeadClauses, AllUnder, DistinctClauses, Guided,
         GuardsOnClauses, Rest, Kept, Unmarked, Dead, BetweenClauses;
    var out := BindSwitch(s, ctx, st);
    TrailValid(st, out, k);
    var s0, s1, s2 := SwitchParts(s, ctx, st);
    SwitchMarked(k.id, s, ctx, st, s0, s1, s2);
    BreakContextTargets(ctx, |st.graph|);
    SwitchUnder(ctx, |st.graph|, |s1.graph|);
    PartKept(st, s1, s2, out, {|st.graph|}, k.w);
    PartTrailed(st, s1, s2, out, k);
    DeadClausesTrail(s, s1, s2, k);
    FirstClauses(s, s1, Inner(ctx).(breakTarget := Some(|st.graph|)), s2, k.w);
    ClausesEvidence(s, s.clauses, 0, s1.flow, UNREACHABLE_FLOW, Inner(ctx).(breakTarget := Some(|st.graph|)), s1, k);
  }

  lemma SwitchUnder(ctx: Context, post: FlowId, size: nat)
    requires AllUnder(Targets(ctx), post) && post < size
    ensures AllUnder(Targets(Inner(ctx).(breakTarget := Some(post))), size) && AllUnder({post}, size)
  {
    hide Targets;
    BreakContextTargets(ctx, post);
  }

  lemma FirstClauses(s: Stmt, s1: State, inner: Context, s2: State, w: World)
    requires s.Switch? && Kept(s1, s2, w) && AllUnder(Targets(inner), |s1.graph|)
    requires s2 == BindClauses(s, s.clauses, 0, s1.flow, UNREACHABLE_FLOW, inner, s1)
    ensures BetweenClauses(s, s.clauses, 0, s1.flow, UNREACHABLE_FLOW, inner, s1, s2, w)
  {
    hide BindClauses, Targets, IsNarrowingSwitch;
    assert w.graph[UNREACHABLE_FLOW].Unreachable?;
  }

  lemma DeadClausesTrail(s: Stmt, s1: State, s2: State, k: Trail)
    requires s.Switch? && Trailed(s1, s2, k) && (Dead(s1) ==> s2 == BindDeadClauses(s.clauses, s1))
    ensures !Dead(s1)
  {
    hide Trailed, Valid, Enclosed, BindDeadClauses, Dead;
    TrailValid(s1, s2, k);
    if Dead(s1) {
      Beginning(s1);
      DeadClausesEnclosed(s1, {}, s.clauses, s1);
      TrailLive(s1, s2, k);
    }
  }

  /** The states while a switch statement is bound. */
  predicate SwitchStates(s: Stmt, ctx: Context, st: State, s0: State, s1: State, s2: State)
    requires s.Switch?
  {
    var s3 := Join(s2, |st.graph|);
    && s0 == NewNode(st, BranchLabel([])) && s1 == BindExpr(s.expr, AsValue, ctx.exceptionTarget, s0)
    && s2 == (if Dead(s1) then BindDeadClauses(s.clauses, s1)
              else BindClauses(s, s.clauses, 0, s1.flow, UNREACHABLE_FLOW, Inner(ctx).(breakTarget := Some(|st.graph|)), s1))
    && BindSwitch(s, ctx, st)
       == Resume(if HasDefault(s.clauses) then s3
                 else JoinFrom(NewNode(s3, SwitchClause(s.id, 0, 0, s1.flow)), |st.graph|, |s3.graph|), |st.graph|)
  }

  lemma SwitchParts(s: Stmt, ctx: Context, st: State) returns (s0: State, s1: State, s2: State)
    requires s.Switch? && Valid(st)
    ensures SwitchStates(s, ctx, st, s0, s1, s2) && Valid(s1) && |st.graph| < |s1.graph|
    ensures Extends(s1.graph, s2.graph) && Rest({|st.graph|}, s2, BindSwitch(s, ctx, st))
  {
    hide Targets, Valid, Grows, BindExpr, BindClauses, BindDeadClauses, Rest, AddAntecedent, Resume, Extends, Dead,
         HasDefault;
    var post := |st.graph|;
    s0 := NewNode(st, BranchLabel([]));
    Beginning(st);
    LabelsRest(st, s0, [BranchLabel([])]);
    RestLength({}, st, s0);
    s1 := BindExpr(s.expr, AsValue, ctx.exceptionTarget, s0);
    ExprRest(s.expr, ctx.exceptionTarget, s0);
    RestLength(Optional(ctx.exceptionTarget), s0, s1);
    var inner := Inner(ctx).(breakTarget := Some(post));
    s2 := if Dead(s1) then BindDeadClauses(s.clauses, s1)
          else BindClauses(s, s.clauses, 0, s1.flow, UNREACHABLE_FLOW, inner, s1);
    if Dead(s1) {
      DeadClausesGrow(s.clauses, s1);
      GrowsExtends({}, s1, s2);
    } else {
      ClausesGrow(s, s.clauses, 0, s1.flow, UNREACHABLE_FLOW, inner, s1);
      GrowsExtends(Targets(inner), s1, s2);
    }
    SwitchEndRest(s, s1.flow, s2, post);
  }

  lemma SwitchEndRest(s: Stmt, pre: FlowId, s2: State, post: FlowId)
    requires s.Switch? && Valid(s2) && pre < |s2.graph|
    ensures var s3 := Join(s2, post);
            && Rest({post}, s2, Resume(s3, post))
            && Rest({post}, s2, Resume(JoinFrom(NewNode(s3, SwitchClause(s.id, 0, 0, pre)), post, |s3.graph|), post))
  {
    hide Valid, Grows, Rest, AddAntecedent, Resume;
    Beginning(s2);
    var s3 := Join(s2, post);
    JoinResumeRest(s2, post, post);
    JoinRest(s2, post, s2.flow);
    RestLength({post}, s2, s3);
    var s4 := NewNode(s3, SwitchClause(s.id, 0, 0, pre));
    ClauseNodeRest(s3, s4, SwitchClause(s.id, 0, 0, pre));
    RestLength({}, s3, s4);
    JoinRest(s4, post, |s3.graph|);
    var s5 := JoinFrom(s4, post, |s3.graph|);
    RestLength({post}, s4, s5);
    ResumeRest(s5, post);
    RestStep({post}, s2, {post}, s3, {}, s4);
    RestStep({post}, s2, {post}, s4, {post}, s5);
    RestStep({post}, s2, {post}, s5, {}, Resume(s5, post));
  }

  lemma ClauseNodeRest(a: State, b: State, n: FlowNode)
    requires Valid(a) && b == NewNode(a, n) && n.SwitchClause?
    ensures Rest({}, a, b)
  {
    hide Grows;
    AppendGrows(a, b, [n]);
  }

  lemma SwitchMarked(id: nat, s: Stmt, ctx: Context, st: State, s0: State, s1: State, s2: State)
    requires s.Switch? && SwitchStates(s, ctx, st, s0, s1, s2)
    ensures Unmarked(id, st, s1) && Unmarked(id, s2, BindSwitch(s, ctx, st))
  {
    hide BindExpr, BindClauses, BindDeadClauses, AddAntecedent, FinishFlowLabel, Dead, HasDefault;
    ExprMarks(s.expr, AsValue, ctx.exceptionTarget, s0);
  }

  /** The state at the end of the clauses. */
  function ClausesEnd(s: Stmt, ctx: Context, st: State): State
    requires s.Switch?
  {
    var s1 := BindExpr(s.expr, AsValue, ctx.exceptionTarget, NewNode(st, BranchLabel([])));
    if Dead(s1) then BindDeadClauses(s.clauses, s1)
    else BindClauses(s, s.clauses, 0, s1.flow, UNREACHABLE_FLOW, Inner(ctx).(breakTarget := Some(|st.graph|)), s1)
  }

  /** What follows a switch statement is reached by a break, by the end of the last clause or, without a default clause
      only, past all clauses; a walk that goes that way shows that no clause was chosen. */
  lemma NoClauseShown(s: Stmt, ctx: Context, st: State, w: World, a: FlowId, env: Env, path: seq<FlowId>)
    requires s.Switch? && Kept(st, BindSwitch(s, ctx, st), w) && a != ClausesEnd(s, ctx, st).flow
    requires GainedAt(ClausesEnd(s, ctx, st).graph, BindSwitch(s, ctx, st).graph, |st.graph|, a)
    requires IsWalk(w, a, env, path)
    ensures !HasDefault(s.clauses) && InClauses(s.id, 0, 0) in Steps(w.graph, a, path)
  {
    hide Valid, BindExpr, BindClauses, BindDeadClauses, FinishFlowLabel, Dead, HasDefault, Kept, IsWalk, Steps, Extends, Rest,
         Grows;
    var out := BindSwitch(s, ctx, st);
    KeptStart(st, out, w);
    var s0, s1, s2 := SwitchParts(s, ctx, st);
    RestLength({|st.graph|}, s2, out);
    assert s2 == ClausesEnd(s, ctx, st);
    assert |st.graph| <= a < |out.graph| && out.graph[a] == SwitchClause(s.id, 0, 0, s1.flow) by {
      StmtSoundness.ExtendsLength(s1.graph, s2.graph);
    }
    KeptNode(st, out, w, a);
    PastClauses(s.id, s1.flow, w, a, env, path);
  }

  lemma PastClauses(id: nat, pre: FlowId, w: World, a: FlowId, env: Env, path: seq<FlowId>)
    requires a < |w.graph| && w.graph[a] == SwitchClause(id, 0, 0, pre) && IsWalk(w, a, env, path)
    ensures InClauses(id, 0, 0) in Steps(w.graph, a, path)
  {
    assert path != [];
    assert Steps(w.graph, a, path) == Steps(w.graph, path[0], path[1..]) + [InClauses(id, 0, 0)];
  }

  // ----- functions -----

  /** The states while a function is bound. */
  predicate ContainerStates(s: Stmt, st: State, s0: State, s1: State)
    requires s.Function?
  {
    && s0 == NewLabels(st, if s.isConstructor then [Start, BranchLabel([])] else [Start]).(flow := |st.graph|, explicitReturn := false)
    && s1 == BindBlock(s.statements, ContainerContext(s, |st.graph|), s0)
    && BindContainer(s, st) == LeaveContainer(s, st, s1)
  }

  lemma ContainerParts(s: Stmt, st: State) returns (s0: State, s1: State)
    requires s.Function? && Valid(st)
    ensures ContainerStates(s, st, s0, s1) && Rest(Targets(ContainerContext(s, |st.graph|)), s0, s1)
    ensures Enclosed(s0, {}, s1)
    ensures AllUnder(Targets(ContainerContext(s, |st.graph|)), |s0.graph|) && |st.graph| < |s0.graph|
    ensures s0.marks == st.marks
  {
    hide Valid, Grows, BindBlock, Rest, LeaveContainer, Enclosed;
    Beginning(st);
    var created := if s.isConstructor then [Start, BranchLabel([])] else [Start];
    s0 := NewLabels(st, created).(flow := |st.graph|, explicitReturn := false);
    s1 := BindBlock(s.statements, ContainerContext(s, |st.graph|), s0);
    LabelsRest(st, s0, created);
    RestLength({}, st, s0);
    BlockRest(s.statements, ContainerContext(s, |st.graph|), s0);
  }

  lemma LeaveChanges(s: Stmt, before: State, st: State)
    requires s.Function? && Valid(st) && |before.graph| < |st.graph| && Valid(before)
    ensures var out := LeaveContainer(s, before, st);
            && |out.graph| == |st.graph| && Extends(st.graph, out.graph)
            && (forall i :: 0 <= i < |st.graph| && i != |before.graph| + 1 ==> out.graph[i] == st.graph[i])
            && (forall id, f: FlowId :: FlowAt(id, f) in out.marks ==> FlowAt(id, f) in st.marks)
  {
  }

  lemma ContainerKept(s: Stmt, st: State, s0: State, s1: State, w: World)
    requires s.Function? && Valid(st) && ContainerStates(s, st, s0, s1)
    requires Rest(Targets(ContainerContext(s, |st.graph|)), s0, s1)
    requires Enclosed(s0, {}, s1) && |st.graph| < |s0.graph| && w.start == |st.graph|
    requires FlowGuards.Settled(st, BindContainer(s, st), w.graph) && Extends(BindContainer(s, st).graph, w.graph)
    ensures Kept(s0, s1, w)
  {
    hide Valid, BindBlock, LeaveContainer, NodeInside, Bounded;
    RestLength(Targets(ContainerContext(s, |st.graph|)), s0, s1);
    LeaveChanges(s, st, s1);
    var out := BindContainer(s, st);
    ExtendsTrans(s1.graph, out.graph, w.graph);
    assert |st.graph| + 1 < |s0.graph| || !s.isConstructor;
    forall i | |s0.graph| <= i < |s1.graph|
      ensures w.graph[i] == s1.graph[i]
    {
      assert out.graph[i] == w.graph[i];
      if !s.isConstructor {
        assert out.graph == s1.graph by { LeaveGraph(s, st, s1); }
      }
    }
    forall i | |st.graph| <= i < |s0.graph|
      ensures !w.graph[i].ReduceLabel?
    {
      assert Refines(s0.graph[i], s1.graph[i]) && Refines(s1.graph[i], w.graph[i]);
    }
    forall i | 0 <= i < |w.graph| && w.graph[i].ReduceLabel? && |s0.graph| <= w.graph[i].finallyLabel < |s1.graph|
      ensures |s0.graph| <= i < |s1.graph|
    {
      assert |st.graph| <= i < |out.graph|;
    }
  }

  lemma LeaveGraph(s: Stmt, before: State, st: State)
    requires s.Function? && !s.isConstructor
    ensures LeaveContainer(s, before, st).graph == st.graph
  {
  }

  /** For any function, as long as nothing that is bound later adds to its labels: every walk from a flow recorded on one
      of its statements to the start of the function shows everything that guards the statement. */
  lemma FunctionEvidence(s: Stmt, st: State, k: Trail)
    requires s.Function? && Valid(st) && Distinct(s) && k.w.start == |st.graph|
    requires FlowGuards.Settled(st, BindContainer(s, st), k.w.graph) && Extends(BindContainer(s, st).graph, k.w.graph)
    requires FlowAt(k.id, k.from) in BindContainer(s, st).marks && FlowAt(k.id, k.from) !in st.marks
    requires IsWalk(k.w, k.from, map[], k.path)
    ensures Guided(GuardsOnSeq(s.statements, k.id), k)
  {
    hide FlowGuards.Settled, Extends, IsWalk, Guided, GuardsOnSeq, BindBlock, LeaveContainer, Valid, Rest, Targets, Enclosed,
         ContainerContext, AllUnder, Kept, DistinctSeq;
    var s0, s1 := ContainerParts(s, st);
    RestLength(Targets(ContainerContext(s, |st.graph|)), s0, s1);
    LeaveChanges(s, st, s1);
    ContainerKept(s, st, s0, s1, k.w);
    BlockEvidence(s.statements, ContainerContext(s, |st.graph|), s0, k);
  }

  // ----- whole programs -----

  lemma {:induction false} FunctionsSplit(ss: seq<Stmt>, i: nat, st: State)
    requires i <= |ss|
    ensures BindFunctions(ss, st) == BindFunctions(ss[i..], BindFunctions(ss[..i], st))
    decreases i
  {
    hide BindContainer;
    if i == 0 {
      assert ss[0..] == ss && ss[..0] == [];
    } else {
      var s1 := if ss[0].Function? then BindContainer(ss[0], st) else st;
      FunctionsSplit(ss[1..], i - 1, s1);
      assert ss[1..][i - 1..] == ss[i..] && ss[1..][..i - 1] == ss[..i][1..] && ss[..i][0] == ss[0];
    }
  }

  lemma {:induction false} OnlyIn(ss: seq<Stmt>, i: nat, id: nat)
    requires i < |ss| && DistinctSeq(ss) && id in Ids(ss[i])
    ensures id !in IdsSeq(ss[..i]) && id !in IdsSeq(ss[i + 1..]) && id in IdsSeq(ss) && Distinct(ss[i])
    decreases i
  {
    hide Ids, Distinct;
    if i == 0 {
      assert ss[..0] == [];
    } else {
      OnlyIn(ss[1..], i - 1, id);
      assert ss[1..][i - 1] == ss[i] && ss[1..][..i - 1] == ss[..i][1..] && ss[1..][i..] == ss[i + 1..];
      assert ss[..i][0] == ss[0];
    }
  }

  /** What is bound before and after a function. */
  lemma FunctionKept(earlier: seq<Stmt>, s: Stmt, later: seq<Stmt>, g: Graph)
    requires s.Function?
    requires var st := BindFunctions(earlier, FlowTheorems.INITIAL);
             g == BindFunctions(later, BindContainer(s, st)).graph
    ensures var st := BindFunctions(earlier, FlowTheorems.INITIAL);
            && Valid(st) && FlowGuards.Settled(st, BindContainer(s, st), g) && Extends(BindContainer(s, st).graph, g)
  {
    hide Valid, BindFunctions, BindContainer, Enclosed;
    var initial := FlowTheorems.INITIAL;
    FlowTheorems.InitialValid();
    FunctionsRest(earlier, initial);
    var st := BindFunctions(earlier, initial);
    RestLength({}, initial, st);
    ContainerRest(s, st);
    var out := BindContainer(s, st);
    RestLength({}, st, out);
    FunctionsRest(later, out);
    var last := BindFunctions(later, out);
    RestLength({}, out, last);
    TwoFirst(last);
    OldReduces(initial, st);
    SettledLast(st, out, last);
  }

  lemma ContainerRest(s: Stmt, st: State)
    requires s.Function? && Valid(st)
    ensures Rest({}, st, BindContainer(s, st))
  {
    hide Valid, Grows, Enclosed, BindContainer;
    Beginning(st);
    ContainerGrows(s, st);
    ContainerEnclosed(st, {}, s, st);
    EnclosedRest({}, st, BindContainer(s, st));
  }

  lemma OldReduces(initial: State, st: State)
    requires initial == FlowTheorems.INITIAL && Enclosed(initial, {}, st) && Extends(initial.graph, st.graph)
    ensures forall i :: 0 <= i < |st.graph| && st.graph[i].ReduceLabel? ==> st.graph[i].finallyLabel < i
  {
    assert Refines(initial.graph[0], st.graph[0]) && Refines(initial.graph[1], st.graph[1]);
  }

  lemma SettledLast(st: State, out: State, last: State)
    requires Rest({}, st, out) && Rest({}, out, last)
    requires forall i :: 0 <= i < |st.graph| && st.graph[i].ReduceLabel? ==> st.graph[i].finallyLabel < i
    ensures FlowGuards.Settled(st, out, last.graph)
  {
    forall i | 0 <= i < |st.graph|
      ensures last.graph[i] == st.graph[i]
    {
      assert last.graph[i] == out.graph[i];
    }
  }

  /** Guards are shown: when all functions of a program are bound, every backward walk from a flow recorded on a statement
      to the start of its function passes the condition nodes of every if statement and loop that guards it, with the
      right truth values, operand by operand through logical operators; the assignment of the variable of every for-of
      loop around it; and, for every narrowing switch around it, a clause node for exactly one group of its clauses, that
      of the clause with the statement or an earlier one. */
  lemma GuardsEvident(functions: seq<Stmt>, i: nat, k: Trail)
    requires i < |functions| && functions[i].Function? && DistinctSeq(functions) && k.id in Ids(functions[i])
    requires k.w.graph == BindFunctions(functions, FlowTheorems.INITIAL).graph
    requires k.w.start == |BindFunctions(functions[..i], FlowTheorems.INITIAL).graph|
    requires FlowAt(k.id, k.from) in BindFunctions(functions, FlowTheorems.INITIAL).marks
    requires IsWalk(k.w, k.from, map[], k.path)
    ensures Guided(GuardsOnSeq(functions[i].statements, k.id), k)
  {
    hide BindContainer, IsWalk, Ids, Valid, FlowGuards.Settled, Extends, Distinct, DistinctSeq, GuardsOnSeq, Guided;
    var initial, s := FlowTheorems.INITIAL, functions[i];
    var st := BindFunctions(functions[..i], initial);
    FunctionsSplit(functions, i, initial);
    assert functions[i..][0] == s && functions[i..][1..] == functions[i + 1..];
    OnlyIn(functions, i, k.id);
    FunctionsMarks(k.id, functions[..i], initial);
    FunctionsMarks(k.id, functions[i + 1..], BindContainer(s, st));
    assert FlowAt(k.id, k.from).id == k.id;
    FunctionKept(functions[..i], s, functions[i + 1..], k.w.graph);
    FunctionEvidence(s, st, k);
  }

  // ----- through a finally block -----

  /** The flow at the end of the try block. */
  function TryBlockEnd(s: Stmt, ctx: Context, st: State): FlowId
    requires s.Try?
  {
    BindBlock(s.block, TryContext(s, ctx, |st.graph| + 1, |st.graph| + 2), Join(NewLabels(st, BRANCHES), |st.graph| + 2)).flow
  }

  /** The flow at the end of the catch clause. */
  function CatchEnd(s: Stmt, ctx: Context, st: State): FlowId
    requires s.Try? && s.handler.SomeBlock?
  {
    var c0 := Resume(BindTryBlock(s, ctx, st), |st.graph| + 2);
    BindBlock(s.handler.statements, TryContext(s, ctx, |st.graph| + 1, |c0.graph|), Join(NewNode(c0, BranchLabel([])), |c0.graph|)).flow
  }

  /** The walk goes through the finally block and leaves it at the start to one of the listed flows. */
  ghost predicate ThroughFinally(finallyLabel: FlowId, list: seq<FlowId>, path: seq<FlowId>) {
    exists j: nat :: 0 < j < |path| && path[j - 1] == finallyLabel && path[j] in list
  }

  lemma PastFinally(f0: State, f1: State, w: World, n: FlowId, list: seq<FlowId>, env: Env, path: seq<FlowId>)
    requires Kept(f0, f1, w) && Enclosed(f0, {}, f1) && f0.flow + 1 == |f0.graph| && w.start != f0.flow
    requires n < |w.graph| && w.graph[n] == ReduceLabel(f0.flow, list, f1.flow)
    requires f0.flow < |w.graph| && w.graph[f0.flow].FinallyLabel?
    requires Stems(w.graph, env) && IsWalk(w, n, env, path)
    ensures ThroughFinally(f0.flow, list, path)
  {
    hide Enclosed, Stems, Valid, Extends, FlowGuards.Settled, Steps;
    EnclosedLength(f0, {}, f1);
    NextStems(w.graph, n, env);
    var next := NextEnv(w.graph, n, env);
    var k, env', more := PassesEntry(f0, {}, f1, w, f1.flow, next, path[1..]);
    assert !DecidedInside(f0, f1, f0.flow) && env'[f0.flow] == list;
    var rest := path[1..][k..];
    assert rest != [] && rest[0] == path[k + 1] && rest[0] in list;
    assert path[k] == f0.flow by {
      if k > 0 {
        assert path[1..][k - 1] == path[k];
      }
    }
  }

  lemma AddReducedGains(st: State, target: Option<FlowId>, finallyLabel: FlowId, list: seq<FlowId>, t: FlowId, a: FlowId)
    requires t < |st.graph|
    ensures var r := AddReduced(st, target, finallyLabel, list);
            && |st.graph| <= |r.graph| && r.flow == st.flow
            && (GainedAt(st.graph, r.graph, t, a) ==>
                  target == Some(t) && a == |st.graph| < |r.graph| && r.graph[a] == ReduceLabel(finallyLabel, list, st.flow))
  {
  }

  lemma AddReducedKeeps(st: State, target: Option<FlowId>, finallyLabel: FlowId, list: seq<FlowId>, n: FlowId)
    requires n < |st.graph| && st.graph[n].ReduceLabel?
    ensures var r := AddReduced(st, target, finallyLabel, list);
            n < |r.graph| && r.graph[n] == st.graph[n]
  {
  }

  /** The reduce labels that leaving a finally block adds to the targets in force. */
  lemma LeaveGains(ctx: Context, st: State, finallyLabel: FlowId, normal: seq<FlowId>, exceptional: seq<FlowId>,
                   returning: seq<FlowId>, t: FlowId, a: FlowId)
    requires t < |st.graph|
    requires GainedAt(st.graph, LeaveFinally(ctx, st, finallyLabel, normal, exceptional, returning).graph, t, a)
    ensures var out := LeaveFinally(ctx, st, finallyLabel, normal, exceptional, returning);
            |st.graph| <= a < |out.graph|
            && ((ctx.returnTarget == Some(t) && out.graph[a] == ReduceLabel(finallyLabel, returning, st.flow))
                || (ctx.exceptionTarget == Some(t) && out.graph[a] == ReduceLabel(finallyLabel, exceptional, st.flow)))
  {
    hide AddReduced;
    var s1 := AddReduced(st, ctx.returnTarget, finallyLabel, returning);
    var s2 := AddReduced(s1, ctx.exceptionTarget, finallyLabel, exceptional);
    AddReducedGains(st, ctx.returnTarget, finallyLabel, returning, t, a);
    AddReducedGains(s1, ctx.exceptionTarget, finallyLabel, exceptional, t, a);
    if GainedAt(st.graph, s1.graph, t, a) {
      AddReducedKeeps(s1, ctx.exceptionTarget, finallyLabel, exceptional, a);
    }
  }

  lemma LeaveFlow(ctx: Context, st: State, finallyLabel: FlowId, normal: seq<FlowId>, exceptional: seq<FlowId>,
                  returning: seq<FlowId>)
    requires Valid(st)
    ensures var out := LeaveFinally(ctx, st, finallyLabel, normal, exceptional, returning);
            out.flow == UNREACHABLE_FLOW
            || (|st.graph| <= out.flow < |out.graph| && out.graph[out.flow] == ReduceLabel(finallyLabel, normal, st.flow))
  {
    hide AddAntecedent, Valid;
    var s1 := AddReduced(st, ctx.returnTarget, finallyLabel, returning);
    assert |s1.graph| >= |st.graph| && s1.flow == st.flow by { AddReducedReduces(st, ctx.returnTarget, finallyLabel, returning); }
    AddReducedReduces(s1, ctx.exceptionTarget, finallyLabel, exceptional);
  }

  /** Past a try statement with a finally block: a walk from what follows goes back through the finally block, and from
      its start to the end of the try block or of the catch clause. */
  lemma TryPast(s: Stmt, ctx: Context, st: State, w: World, env: Env, path: seq<FlowId>)
    requires s.Try? && s.finalizer.SomeBlock? && AllUnder(Targets(ctx), |st.graph|) && Kept(st, BindTry(s, ctx, st), w)
    requires Stems(w.graph, env) && IsWalk(w, BindTry(s, ctx, st).flow, env, path)
    ensures ThroughFinally(|BindGuarded(s, ctx, st).state.graph|,
                           [TryBlockEnd(s, ctx, st)] + (if s.handler.SomeBlock? then [CatchEnd(s, ctx, st)] else []), path)
  {
    hide Kept, Rest, Valid, Grows, Targets, Enclosed, BindBlock, BindGuarded, LeaveFinally, BindTry, Extends, Stems, Antecedents,
         AllUnder, Apart, IsWalk, TryBlockEnd, CatchEnd;
    var out := BindTry(s, ctx, st);
    var f0, f1, normal, exceptional, returning := FinallyKept(s, ctx, st, w);
    LeaveFlow(ctx, f1, f0.flow, normal, exceptional, returning);
    WalkGoesOn(w, st, out, out.flow, env, path);
    KeptNode(st, out, w, out.flow);
    PastFinally(f0, f1, w, out.flow, normal, env, path);
    NormalExits(s, ctx, st);
    var j: nat :| 0 < j < |path| && path[j - 1] == f0.flow && path[j] in normal;
  }

  /** Past a try statement by return or exception: a walk from what leaving the finally block adds to the return or
      exception target in force goes back through the finally block, and from its start to what the parts before it
      added to their own return or exception label. */
  lemma TryLeft(s: Stmt, ctx: Context, st: State, w: World, t: FlowId, a: FlowId, env: Env, path: seq<FlowId>)
    requires s.Try? && s.finalizer.SomeBlock? && AllUnder(Targets(ctx), |st.graph|) && Kept(st, BindTry(s, ctx, st), w)
    requires t < |st.graph| && GainedAt(FinalizerEnd(s, ctx, st).graph, BindTry(s, ctx, st).graph, t, a)
    requires Stems(w.graph, env) && IsWalk(w, a, env, path)
    ensures var g := BindGuarded(s, ctx, st);
            || (ctx.returnTarget == Some(t)
                && ThroughFinally(|g.state.graph|, Antecedents(g.state.graph, |st.graph| + 1), path))
            || (ctx.exceptionTarget == Some(t)
                && ThroughFinally(|g.state.graph|, Antecedents(g.state.graph, g.exceptions), path))
  {
    hide Kept, Rest, Valid, Grows, Targets, Enclosed, BindBlock, BindGuarded, LeaveFinally, BindTry, Extends, Stems, Antecedents,
         AllUnder, Apart, IsWalk, ThroughFinally, GainedAt;
    var out := BindTry(s, ctx, st);
    var f0, f1, normal, exceptional, returning := FinallyKept(s, ctx, st, w);
    GuardingUnder(Targets(ctx), |st.graph|, |f1.graph|);
    LeaveGains(ctx, f1, f0.flow, normal, exceptional, returning, t, a);
    KeptNode(st, out, w, a);
    if ctx.returnTarget == Some(t) && out.graph[a] == ReduceLabel(f0.flow, returning, f1.flow) {
      PastFinally(f0, f1, w, a, returning, env, path);
    } else {
      PastFinally(f0, f1, w, a, exceptional, env, path);
    }
  }

  lemma FinallyKept(s: Stmt, ctx: Context, st: State, w: World)
    returns (f0: State, f1: State, normal: seq<FlowId>, exceptional: seq<FlowId>, returning: seq<FlowId>)
    requires s.Try? && s.finalizer.SomeBlock? && AllUnder(Targets(ctx), |st.graph|) && Kept(st, BindTry(s, ctx, st), w)
    ensures var g := BindGuarded(s, ctx, st);
            && f1 == FinalizerEnd(s, ctx, st)
            && normal == Antecedents(g.state.graph, |st.graph|)
            && exceptional == Antecedents(g.state.graph, g.exceptions)
            && returning == Antecedents(g.state.graph, |st.graph| + 1) && f0.flow == |g.state.graph|
            && BindTry(s, ctx, st) == LeaveFinally(ctx, f1, f0.flow, normal, exceptional, returning)
    ensures Valid(st) && Valid(f1) && Kept(f0, f1, w) && Enclosed(f0, {}, f1) && f0.flow + 1 == |f0.graph|
    ensures |st.graph| <= |f1.graph|
    ensures w.start != f0.flow && f0.flow < |w.graph| && w.graph[f0.flow].FinallyLabel?
  {
    hide Kept, Rest, Valid, Grows, Targets, Enclosed, BindBlock, BindGuarded, LeaveFinally, BindTry, Extends, Antecedents,
         AllUnder, Apart;
    KeptStart(st, BindTry(s, ctx, st), w);
    var g;
    g, f0, f1 := FinallyParts(s, ctx, st);
    GuardedLonger(s, ctx, st);
    RestLength({}, g.state, f0);
    RestLength(Targets(ctx), f0, f1);
    GuardingUnder(Targets(ctx), |st.graph|, |f0.graph|);
    ApartKept(st, f0, f1, BindTry(s, ctx, st), Targets(ctx), w);
    normal, exceptional, returning :=
      Antecedents(g.state.graph, |st.graph|), Antecedents(g.state.graph, g.exceptions), Antecedents(g.state.graph, |st.graph| + 1);
    FinallyNode(f0, f1, w, f0.flow);
  }

  lemma KeptStart(st: State, out: State, w: World)
    requires Kept(st, out, w)
    ensures Valid(st) && w.start < |st.graph|
  {
  }

  lemma KeptNode(st: State, out: State, w: World, n: FlowId)
    requires Kept(st, out, w) && |st.graph| <= n < |out.graph|
    ensures n < |w.graph| && w.graph[n] == out.graph[n]
  {
  }

  lemma FinallyNode(f0: State, f1: State, w: World, n: FlowId)
    requires Kept(f0, f1, w) && n < |f0.graph| && f0.graph[n].FinallyLabel?
    ensures n < |w.graph| && w.graph[n].FinallyLabel?
  {
    assert Refines(f0.graph[n], f1.graph[n]) && Refines(f1.graph[n], w.graph[n]);
  }

  lemma WalkGoesOn(w: World, st: State, out: State, n: FlowId, env: Env, path: seq<FlowId>)
    requires Kept(st, out, w) && IsWalk(w, n, env, path)
    ensures n != UNREACHABLE_FLOW
  {
    assert w.graph[0].Unreachable?;
  }

  /** The label after a try statement is reached from the ends of the try block and of the catch clause. */
  lemma NormalExits(s: Stmt, ctx: Context, st: State)
    requires s.Try? && Valid(st) && AllUnder(Targets(ctx), |st.graph|)
    ensures forall x :: x in Antecedents(BindGuarded(s, ctx, st).state.graph, |st.graph|) ==>
              x == TryBlockEnd(s, ctx, st) || (s.handler.SomeBlock? && x == CatchEnd(s, ctx, st))
  {
    hide Rest, Targets, Valid, Grows, BindBlock, AddAntecedent, TryContext, AllUnder, Resume, Extends, Antecedents;
    var exit := |st.graph|;
    var e0, b := BlockParts(s, ctx, st);
    TryUnder(s, ctx, exit + 1, exit + 2, exit, exit, |e0.graph|);
    LabelsFirst(st);
    var inner := TryContext(s, ctx, exit + 1, exit + 2);
    TryContextTargets(s, ctx, exit + 1, exit + 2);
    NotYetTarget(ctx, exit);
    RestKeepsLabel(Targets(inner), e0, b, exit);
    JoinAdds(b, exit, b.flow);
    assert TryBlockEnd(s, ctx, st) == b.flow && Antecedents(b.graph, exit) == [];
    assert JoinFrom(b, exit, b.flow) == BindTryBlock(s, ctx, st);
    if s.handler.SomeBlock? {
      var c0, c1, h := HandlerParts(s, ctx, st, e0, b);
      var inner' := TryContext(s, ctx, exit + 1, |c0.graph|);
      TryContextTargets(s, ctx, exit + 1, |c0.graph|);
      HandlerEntryKeeps(b, exit, c0, c1);
      RestKeepsLabel(Targets(inner'), c1, h, exit);
      JoinAdds(h, exit, h.flow);
      assert CatchEnd(s, ctx, st) == h.flow;
      assert JoinFrom(h, exit, h.flow) == BindGuarded(s, ctx, st).state;
    }
  }

  lemma LabelsFirst(st: State)
    requires Valid(st)
    ensures Antecedents(Join(NewLabels(st, BRANCHES), |st.graph| + 2).graph, |st.graph|) == []
  {
  }

  lemma NotYetTarget(ctx: Context, label_: FlowId)
    requires AllUnder(Targets(ctx), label_)
    ensures label_ !in Targets(ctx)
  {
    hide Targets;
  }

  lemma RestKeepsLabel(targets: set<FlowId>, a: State, b: State, label_: FlowId)
    requires Rest(targets, a, b) && label_ !in targets && label_ < |a.graph|
    ensures Antecedents(b.graph, label_) == Antecedents(a.graph, label_)
  {
  }

  lemma JoinAdds(st: State, join: FlowId, from: FlowId)
    ensures forall x :: x in Antecedents(JoinFrom(st, join, from).graph, join) ==> x == from || x in Antecedents(st.graph, join)
  {
  }

  lemma HandlerEntryKeeps(b: State, exit: FlowId, c0: State, c1: State)
    requires c0 == Resume(Join(b, exit), exit + 2) && c1 == Join(NewNode(c0, BranchLabel([])), |c0.graph|)
    requires exit < |b.graph|
    ensures Antecedents(c1.graph, exit) == Antecedents(Join(b, exit).graph, exit)
  {
    hide FinishFlowLabel;
  }

  // ----- calls and expressions without effects -----

  /** What follows a call statement is reached through the node of the call. */
  lemma CallRecorded(s: Stmt, ctx: Context, st: State, w: World, env: Env, path: seq<FlowId>)
    requires s.ExprStmt? && s.expr.Call? && !Dead(st) && Kept(st, BindStmt(s, ctx, st), w)
    requires IsWalk(w, BindStmt(s, ctx, st).flow, env, path)
    ensures path != [] && w.graph[BindStmt(s, ctx, st).flow] == AssertionCall(s.expr, path[0])
  {
    hide Valid, BindExpr, Extends, Grows;
    KeptStart(st, BindStmt(s, ctx, st), w);
    var e := Record(s, st);
    var v := BindExpr(s.expr, AsValue, ctx.exceptionTarget, e);
    RecordValid(s, st);
    ExprGrows(s.expr, AsValue, ctx.exceptionTarget, e);
    GrowsExtends(ModeTargets(AsValue) + Optional(ctx.exceptionTarget), e, v);
    KeptNode(st, BindStmt(s, ctx, st), w, |v.graph|);
  }

  lemma RecordValid(s: Stmt, st: State)
    requires Valid(st)
    ensures Valid(Record(s, st))
  {
  }

  /** Whether the expression assigns. */
  predicate Assigns(e: Expr) {
    match e
    case Paren(x) => Assigns(x)
    case Not(x) => Assigns(x)
    case Logical(_, l, r) => Assigns(l) || Assigns(r)
    case LogicalAssign(_, _, _, _) => true
    case Assign(_, _, _) => true
    case Conditional(c, a, b) => Assigns(c) || Assigns(a) || Assigns(b)
    case Binary(_, l, r) => Assigns(l) || Assigns(r)
    case Call(_, _, a) => Assigns(a)
    case _ => false
  }

  /** An expression that assigns nothing leaves the flow as it was, whatever conditions it has inside. */
  lemma {:induction false} WithoutAssignments(e: Expr, mode: Mode, exc: Option<FlowId>, st: State)
    requires !Assigns(e)
    ensures BindExpr(e, mode, exc, st).effects == st.effects
    ensures mode.AsValue? ==> BindExpr(e, mode, exc, st).flow == st.flow
    decreases e, 1
  {
    hide Dead, BindConditional, BindLogical;
    match e
    case Paren(x) => WithoutAssignments(x, mode, exc, st);
    case Not(x) => WithoutAssignments(x, Negated(mode), exc, st);
    case Logical(_, _, _) => LogicalWithoutAssignments(e, mode, exc, st);
    case Conditional(_, _, _) => ConditionalWithoutAssignments(e, exc, st);
    case Binary(_, l, r) =>
      WithoutAssignments(l, AsValue, exc, st);
      WithoutAssignments(r, AsValue, exc, BindExpr(l, AsValue, exc, st));
    case Call(_, _, a) => WithoutAssignments(a, AsValue, exc, st);
    case _ =>
  }

  lemma {:induction false} ConditionWithoutAssignments(e: Expr, t: FlowId, f: FlowId, exc: Option<FlowId>, st: State)
    requires !Assigns(e)
    ensures BindCondition(e, t, f, exc, st).effects == st.effects
    decreases e, 2
  {
    hide BindExpr, AddAntecedent, CreateCondition;
    WithoutAssignments(e, AsBranch(t, f), exc, st);
  }

  lemma {:induction false} LogicalWithoutAssignments(e: Expr, mode: Mode, exc: Option<FlowId>, st: State)
    requires e.Logical? && !Assigns(e)
    ensures BindLogical(e, mode, exc, st).effects == st.effects
    ensures mode.AsValue? ==> BindLogical(e, mode, exc, st).flow == st.flow
    decreases e, 0
  {
    hide BindCondition, FinishFlowLabel;
    var s0 := NewNode(st, BranchLabel([]));
    match mode
    case AsBranch(t, f) =>
      OperandsWithoutAssignments(e, t, f, |st.graph|, exc, s0);
    case AsValue =>
      var s1 := NewNode(s0.(effects := false), BranchLabel([]));
      OperandsWithoutAssignments(e, |st.graph|, |st.graph|, |s0.graph|, exc, s1);
  }

  lemma {:induction false} OperandsWithoutAssignments(e: Expr, t: FlowId, f: FlowId, preRight: FlowId,
                                                      exc: Option<FlowId>,
                                                      st: State)
    requires e.Logical? && !Assigns(e)
    ensures BindAndOr(e, t, f, preRight, exc, st).effects == st.effects
    decreases e, 0, 0
  {
    hide BindCondition, FinishFlowLabel;
    var lt, lf := LeftTrue(e, t, preRight), LeftFalse(e, f, preRight);
    ConditionWithoutAssignments(e.left, lt, lf, exc, st);
    ConditionWithoutAssignments(e.right, t, f, exc, Resume(BindCondition(e.left, lt, lf, exc, st), preRight));
  }

  lemma {:induction false} ConditionalWithoutAssignments(e: Expr, exc: Option<FlowId>, st: State)
    requires e.Conditional? && !Assigns(e)
    ensures BindConditional(e, exc, st).effects == st.effects && BindConditional(e, exc, st).flow == st.flow
    decreases e, 0
  {
    hide BindExpr, BindCondition, AddAntecedent, FinishFlowLabel;
    var whenTrue, whenFalse, post := |st.graph|, |st.graph| + 1, |st.graph| + 2;
    var s0 := NewLabels(st, BRANCHES).(effects := false);
    var s1 := BindCondition(e.condition, whenTrue, whenFalse, exc, s0);
    ConditionWithoutAssignments(e.condition, whenTrue, whenFalse, exc, s0);
    WithoutAssignments(e.whenTrue, AsValue, exc, Resume(s1, whenTrue));
    var s2 := Join(BindExpr(e.whenTrue, AsValue, exc, Resume(s1, whenTrue)), post);
    WithoutAssignments(e.whenFalse, AsValue, exc, Resume(s2, whenFalse));
  }
}
