/** Every run of a statement is followed by the flow graph: it ends at the current flow, at the target it
    jumped to, or at a flow recorded where it was stopped, and that flow accounts for the run. */
module StmtSoundness {
  import opened Wrappers
  import opened Syntax
  import opened FlowGraph
  import opened FlowBuilder
  import opened FlowGrowth
  import opened Execution
  import opened Walks
  import opened Limits
  import opened ExprSoundness

  // ----- earlier and later states -----

  ghost predicate Earlier(a: State, b: State) {
    Extends(a.graph, b.graph) && a.marks <= b.marks && Valid(b)
  }

  lemma EarlierTrans(a: State, b: State, c: State)
    requires Earlier(a, b) && Earlier(b, c)
    ensures Earlier(a, c)
  {
    hide Extends, Valid;
    ExtendsTrans(a.graph, b.graph, c.graph);
  }

  lemma EarlierRefl(a: State)
    requires Valid(a)
    ensures Earlier(a, a)
  {
    ExtendsRefl(a.graph);
  }

  lemma GrowsEarlier(targets: set<FlowId>, a: State, b: State)
    requires Grows(targets, a, b) && Valid(b)
    ensures Earlier(a, b)
  {
  }

  lemma JoinEarlier(st: State, join: FlowId)
    requires Valid(st)
    ensures Earlier(st, Join(st, join))
  {
    JoinFromGrows(st, join, st.flow);
    GrowsEarlier({join}, st, Join(st, join));
  }

  lemma JoinFromEarlier(st: State, join: FlowId, from: FlowId)
    requires Valid(st) && from < |st.graph|
    ensures Earlier(st, JoinFrom(st, join, from))
  {
    JoinFromGrows(st, join, from);
    GrowsEarlier({join}, st, JoinFrom(st, join, from));
  }

  lemma ResumeEarlier(st: State, join: FlowId)
    requires Valid(st)
    ensures Earlier(st, Resume(st, join))
  {
    ResumeGrows(st, join);
    GrowsEarlier({}, st, Resume(st, join));
  }

  lemma AppendEarlier(st: State, s0: State, nodes: seq<FlowNode>)
    requires Valid(st) && s0.graph == st.graph + nodes && s0.marks == st.marks && s0.flow < |s0.graph|
    requires forall n, x :: n in nodes && IsLabel(n) && x in n.antecedents ==> x < |s0.graph|
    ensures Earlier(st, s0)
  {
    AppendGrows(st, s0, nodes);
    GrowsEarlier({}, st, s0);
  }

  lemma MoveEarlier(a: State, b: State)
    requires Valid(a) && a.graph == b.graph && a.marks <= b.marks && b.flow < |b.graph|
    ensures Earlier(a, b)
  {
    MoveGrows(a, b);
    GrowsEarlier({}, a, b);
  }

  lemma ExprEarlier(e: Expr, mode: Mode, exceptionTarget: Option<FlowId>, st: State)
    requires Valid(st)
    ensures Earlier(st, BindExpr(e, mode, exceptionTarget, st))
  {
    ExprGrows(e, mode, exceptionTarget, st);
    GrowsEarlier(ModeTargets(mode) + Optional(exceptionTarget), st, BindExpr(e, mode, exceptionTarget, st));
  }

  lemma OptionalEarlier(e: Option<Expr>, exceptionTarget: Option<FlowId>, st: State)
    requires Valid(st)
    ensures Earlier(st, BindOptional(e, exceptionTarget, st))
  {
    OptionalGrows(e, exceptionTarget, st);
    GrowsEarlier(Optional(exceptionTarget), st, BindOptional(e, exceptionTarget, st));
  }

  lemma ConditionEarlier(e: Expr, t: FlowId, f: FlowId, exceptionTarget: Option<FlowId>, st: State)
    requires Valid(st)
    ensures Earlier(st, BindCondition(e, t, f, exceptionTarget, st))
  {
    ConditionGrows(e, t, f, exceptionTarget, st);
    GrowsEarlier({t, f} + Optional(exceptionTarget), st, BindCondition(e, t, f, exceptionTarget, st));
  }

  lemma StmtEarlier(s: Stmt, ctx: Context, st: State)
    requires Valid(st)
    ensures Earlier(st, BindStmt(s, ctx, st))
  {
    StmtGrows(s, ctx, st);
    GrowsEarlier(Targets(ctx), st, BindStmt(s, ctx, st));
  }

  lemma BlockEarlier(ss: seq<Stmt>, ctx: Context, st: State)
    requires Valid(st)
    ensures Earlier(st, BindBlock(ss, ctx, st))
  {
    BlockGrows(ss, ctx, st);
    GrowsEarlier(Targets(ctx), st, BindBlock(ss, ctx, st));
  }

  // ----- what is promised about a run -----

  ghost predicate Jumped(v: View, g: Graph, target: Option<FlowId>, past: seq<Event>) {
    target.Some? ==> Into(v.w, g, target.value, v.fixed, past)
  }

  /** At the return target of the function itself only walks that start there matter (`loose`); at the
      return label of a try statement the walks from behind its finally block do, too. */
  ghost predicate ReturnedInto(v: View, g: Graph, target: Option<FlowId>, loose: bool, past: seq<Event>) {
    target.Some? ==>
      exists a :: a in Antecedents(g, target.value) && (if loose then Explains(v.w, a, past) else Good(v.w, a, v.fixed, past))
  }

  ghost predicate Marked(w: World, out: State, id: nat, past: seq<Event>) {
    exists f :: FlowAt(id, f) in out.marks && Explains(w, f, past)
  }

  ghost predicate Settled(v: View, ctx: Context, loose: bool, out: State, r: Run) {
    var past := r.machine.past;
    && (r.outcome.Reached? || r.outcome.Stopped? || Covered(v, past))
    && (match r.outcome
        case Completed => Good(v.w, out.flow, v.fixed, past)
        case Broke(d) => Jumped(v, out.graph, BreakTarget(ctx, d), past)
        case Continued(d) => Jumped(v, out.graph, ContinueTarget(ctx, d), past)
        case Returned => ReturnedInto(v, out.graph, ctx.returnTarget, loose, past)
        case Raised => true
        case Reached(id) => Marked(v.w, out, id, past)
        case Stopped => true)
  }

  /** What holds of a run that ended abruptly still holds when more has been bound. */
  lemma SettledLater(v: View, ctx: Context, loose: bool, a: State, b: State, r: Run)
    requires Settled(v, ctx, loose, a, r) && !r.outcome.Completed? && Earlier(a, b)
    ensures Settled(v, ctx, loose, b, r)
  {
    hide Good, Explains, Into;
    match r.outcome
    case Broke(d) =>
      if BreakTarget(ctx, d).Some? {
        IntoExtends(v.w, a.graph, b.graph, BreakTarget(ctx, d).value, v.fixed, r.machine.past);
      }
    case Continued(d) =>
      if ContinueTarget(ctx, d).Some? {
        IntoExtends(v.w, a.graph, b.graph, ContinueTarget(ctx, d).value, v.fixed, r.machine.past);
      }
    case Returned =>
      if ctx.returnTarget.Some? {
        AntecedentsKept(a.graph, b.graph, ctx.returnTarget.value);
      }
    case _ =>
  }

  lemma AntecedentsKept(g: Graph, h: Graph, join: FlowId)
    requires Extends(g, h)
    ensures forall a :: a in Antecedents(g, join) ==> a in Antecedents(h, join)
  {
    if join < |g| {
      assert Refines(g[join], h[join]);
    }
  }

  /** An expression that did not yield a value. */
  lemma SettledAbrupt(v: View, ctx: Context, loose: bool, out: State, r: ExprRun)
    requires !r.outcome.Value? && (r.outcome.Threw? ==> Covered(v, r.machine.past))
    ensures Settled(v, ctx, loose, out, Abrupt(r))
  {
  }

  // ----- the context of a run -----

  ghost predicate TargetLabel(g: Graph, t: Option<FlowId>) {
    t.Some? ==> IsJoin(g, t.value)
  }

  ghost predicate ContextLabels(g: Graph, ctx: Context) {
    && TargetLabel(g, ctx.breakTarget) && TargetLabel(g, ctx.continueTarget) && TargetLabel(g, ctx.returnTarget)
    && forall i :: 0 <= i < |ctx.labels| ==>
         IsJoin(g, ctx.labels[i].breakTarget) && TargetLabel(g, ctx.labels[i].continueTarget)
  }

  function WrappingNames(ctx: Context): set<string> {
    set i | 0 <= i < |ctx.labels| && i < ctx.wrapping :: ctx.labels[i].name
  }

  /** The context agrees with the view: no enclosing finally block is made later than `g`, and outside
      any try statement a return leaves the function. */
  ghost predicate Fits(v: View, ctx: Context, loose: bool, g: Graph) {
    && ctx.exceptionTarget == v.exceptionTarget
    && ContextLabels(g, ctx)
    && (forall f :: f in v.fixed ==> f < |g|)
    && (v.w.precise && v.exceptionTarget.None? ==> loose)
  }

  lemma FitsLater(v: View, ctx: Context, loose: bool, g: Graph, h: Graph)
    requires Fits(v, ctx, loose, g) && Extends(g, h)
    ensures Fits(v, ctx, loose, h)
  {
    hide Extends;
    assert |g| <= |h| by { ExtendsLength(g, h); }
    forall j | IsJoin(g, j)
      ensures IsJoin(h, j)
    {
      JoinKept(g, h, j);
    }
  }

  lemma ExtendsLength(g: Graph, h: Graph)
    requires Extends(g, h)
    ensures |g| <= |h|
  {
  }

  lemma FitsInner(v: View, ctx: Context, loose: bool, g: Graph)
    requires Fits(v, ctx, loose, g)
    ensures Fits(v, Inner(ctx), loose, g) && WrappingNames(Inner(ctx)) == {}
  {
  }

  lemma FitsLoop(v: View, ctx: Context, loose: bool, g: Graph, post: FlowId, pre: FlowId)
    requires Fits(v, ctx, loose, g) && IsJoin(g, post) && IsJoin(g, pre)
    ensures Fits(v, LoopContext(ctx, post, pre), loose, g) && WrappingNames(LoopContext(ctx, post, pre)) == {}
  {
  }

  // ----- jump targets seen from inside and outside -----

  lemma {:induction false} FoundInLoop(labels: seq<ActiveLabel>, wrapping: nat, target: FlowId, name: string)
    ensures var inner := FindActiveLabel(SetContinueTarget(labels, wrapping, target), name);
            var outer := FindActiveLabel(labels, name);
            && inner.Some? == outer.Some?
            && (inner.Some? ==> inner.value.breakTarget == outer.value.breakTarget)
            && (if exists i :: 0 <= i < |labels| && i < wrapping && labels[i].name == name
                then inner.Some? && inner.value.continueTarget == Some(target)
                else inner == outer)
    decreases labels
  {
    if labels != [] && wrapping > 0 {
      FoundInLoop(labels[1..], wrapping - 1, target, name);
      var inner := SetContinueTarget(labels, wrapping, target);
      assert inner[1..] == SetContinueTarget(labels[1..], wrapping - 1, target);
      if labels[0].name != name {
        if i :| 0 <= i < |labels| && i < wrapping && labels[i].name == name {
          assert labels[1..][i - 1].name == name;
        }
        if i :| 0 <= i < |labels[1..]| && i < wrapping - 1 && labels[1..][i].name == name {
          assert labels[i + 1].name == name;
        }
      }
    }
  }

  /** Seen from a loop body: labelled breaks go where they went outside the loop, and continues that do
      not concern the loop, too. */
  lemma LoopTargets(ctx: Context, post: FlowId, pre: FlowId, d: Option<string>)
    ensures var inner := LoopContext(ctx, post, pre);
            && (d.None? ==> BreakTarget(inner, d) == Some(post) && ContinueTarget(inner, d) == Some(pre))
            && (d.Some? ==> BreakTarget(inner, d) == BreakTarget(ctx, d))
            && (d.Some? && d.value in WrappingNames(ctx) ==> ContinueTarget(inner, d) == Some(pre))
            && (d.Some? && d.value !in WrappingNames(ctx) ==> ContinueTarget(inner, d) == ContinueTarget(ctx, d))
  {
    if d.Some? {
      FoundInLoop(ctx.labels, ctx.wrapping, pre, d.value);
    }
  }

  /** The run of a loop body that ends the loop. */
  lemma LeaveLoopSound(v: View, ctx: Context, loose: bool, pre: FlowId, post: FlowId, body: State, done: State, r: Run)
    requires Settled(v, LoopContext(ctx, post, pre), loose, body, r) && !GoesOn(r.outcome, WrappingNames(ctx))
    requires Earlier(body, done) && IsJoin(done.graph, post) && Extends(done.graph, v.w.graph)
    ensures Settled(v, ctx, loose, Resume(done, post), LeaveLoop(r))
  {
    hide Good, Explains, Into, Extends, Covered, LoopContext, FinishFlowLabel;
    var inner := LoopContext(ctx, post, pre);
    assert inner.returnTarget == ctx.returnTarget by { LoopReturns(ctx, post, pre); }
    SettledLater(v, inner, loose, body, done, r);
    match r.outcome
    case Broke(d) =>
      LoopTargets(ctx, post, pre, d);
      if d.None? {
        IntoFinished(v.w, done.graph, post, v.fixed, r.machine.past);
      }
    case Continued(d) => LoopTargets(ctx, post, pre, d);
    case _ =>
  }

  lemma LoopReturns(ctx: Context, post: FlowId, pre: FlowId)
    ensures LoopContext(ctx, post, pre).returnTarget == ctx.returnTarget
  {
  }

  /** The run of a loop body after which the loop goes on: it ended, or reached the continue target. */
  ghost predicate ComesBack(v: View, pre: FlowId, body: State, r: Run) {
    && Covered(v, r.machine.past)
    && (if r.outcome.Completed? then Good(v.w, body.flow, v.fixed, r.machine.past)
        else Into(v.w, body.graph, pre, v.fixed, r.machine.past))
  }

  lemma GoOnSound(v: View, ctx: Context, loose: bool, pre: FlowId, post: FlowId, body: State, r: Run)
    requires Settled(v, LoopContext(ctx, post, pre), loose, body, r) && GoesOn(r.outcome, WrappingNames(ctx))
    ensures ComesBack(v, pre, body, r)
  {
    hide Good, Explains, Into, Extends, Covered, LoopContext;
    if r.outcome.Continued? {
      LoopTargets(ctx, post, pre, r.outcome.destination);
    }
  }

  lemma JoinBack(v: View, pre: FlowId, body: State, joined: Graph, r: Run)
    requires ComesBack(v, pre, body, r) && Valid(body) && IsJoin(body.graph, pre)
    requires Extends(Join(body, pre).graph, joined) && Extends(joined, v.w.graph)
    ensures Into(v.w, joined, pre, v.fixed, r.machine.past)
  {
    hide Good, Into, Extends, Covered, AddAntecedent;
    JoinEarlier(body, pre);
    ExtendsTrans(body.graph, Join(body, pre).graph, joined);
    ExtendsTrans(body.graph, joined, v.w.graph);
    if r.outcome.Completed? {
      FlowInRange(body);
      IntoAdded(v.w, body.graph, pre, body.flow, v.fixed, r.machine.past);
      IntoExtends(v.w, Join(body, pre).graph, joined, pre, v.fixed, r.machine.past);
    } else {
      IntoExtends(v.w, body.graph, joined, pre, v.fixed, r.machine.past);
    }
  }

  // ----- expressions inside statements -----

  lemma ValueSound(e: Expr, st: State, v: View, m: Machine)
    requires Ready(v, st, BindExpr(e, AsValue, v.exceptionTarget, st), m.past)
    ensures var r := Eval(e, m);
            && (r.outcome.Value? ==> Good(v.w, BindExpr(e, AsValue, v.exceptionTarget, st).flow, v.fixed, r.machine.past))
            && (!r.outcome.Cut? ==> Covered(v, r.machine.past))
  {
    hide Good, Into, Extends, Covered, Quiet, Valid, Eval, BindExpr, ExceptionLabel;
    ExprSound(e, AsValue, st, v, m);
    if Eval(e, m).outcome.Value? {
      ArrivedGood(v, e, AsValue, BindExpr(e, AsValue, v.exceptionTarget, st), Eval(e, m));
    }
  }

  lemma OptionalSound(e: Option<Expr>, st: State, v: View, m: Machine)
    requires Ready(v, st, BindOptional(e, v.exceptionTarget, st), m.past)
    ensures var r := EvalOptional(e, m);
            && (r.outcome.Value? ==> Good(v.w, BindOptional(e, v.exceptionTarget, st).flow, v.fixed, r.machine.past))
            && (!r.outcome.Cut? ==> Covered(v, r.machine.past))
  {
    hide Good, Into, Extends, Covered, Valid, Eval, BindExpr, ExceptionLabel;
    if e.Some? {
      ValueSound(e.value, st, v, m);
    }
  }

  /** Where a run of a statement may start. */
  ghost predicate Enters(v: View, ctx: Context, loose: bool, st: State, out: State, past: seq<Event>) {
    Ready(v, st, out, past) && Fits(v, ctx, loose, st.graph)
  }

  /** The same, with the flow elsewhere. */
  ghost predicate Around(v: View, ctx: Context, loose: bool, st: State, out: State) {
    && Valid(st) && ExceptionLabel(st.graph, v.exceptionTarget) && Fits(v, ctx, loose, st.graph)
    && Extends(out.graph, v.settled) && Extends(v.settled, v.w.graph)
  }

  /** The start of a part of a statement, once its flow is known. */
  lemma ReadyPart(v: View, ctx: Context, loose: bool, st: State, out: State, from: State, to: State, past: seq<Event>)
    requires Around(v, ctx, loose, st, out)
    requires Earlier(st, from) && Earlier(from, to) && Earlier(to, out)
    requires Good(v.w, from.flow, v.fixed, past) && Covered(v, past)
    ensures Ready(v, from, to, past) && Fits(v, ctx, loose, from.graph) && ctx.exceptionTarget == v.exceptionTarget
    ensures Extends(from.graph, v.w.graph) && Extends(to.graph, v.settled) && Extends(to.graph, v.w.graph)
  {
    hide Good, Into, Extends, Covered, Valid, ExceptionLabel, ContextLabels;
    ExtendsTrans(to.graph, out.graph, v.settled);
    ExtendsTrans(to.graph, v.settled, v.w.graph);
    ExtendsTrans(from.graph, to.graph, v.w.graph);
    ExceptionLabelKept(st.graph, from.graph, v.exceptionTarget);
    FitsLater(v, ctx, loose, st.graph, from.graph);
  }

  // ----- while -----

  ghost predicate WhileStaged(s: Stmt, ctx: Context, st: State, s0: State, s1: State, s2: State, done: State) {
    && s.While? && Valid(st)
    && s0 == NewLabels(st, LOOP).(flow := |st.graph|)
    && s1 == BindCondition(s.cond, |st.graph| + 1, |st.graph| + 2, ctx.exceptionTarget, s0)
    && s2 == BindStmt(s.body, LoopContext(ctx, |st.graph| + 2, |st.graph|), Resume(s1, |st.graph| + 1))
    && done == JoinFrom(Join(s2, |st.graph|), |st.graph|, st.flow)
    && BindLive(s, ctx, st) == Resume(done, |st.graph| + 2)
    && Earlier(st, s0) && Earlier(s0, s1) && Earlier(s1, Resume(s1, |st.graph| + 1))
    && Earlier(Resume(s1, |st.graph| + 1), s2) && Earlier(s2, Join(s2, |st.graph|))
    && Earlier(Join(s2, |st.graph|), done)
    && Earlier(s1, done) && Earlier(s2, done) && Earlier(s0, done) && Earlier(s1, s2) && Earlier(s0, s2)
    && Extends(Join(s2, |st.graph|).graph, done.graph)
  }

  lemma WhileStages(s: Stmt, ctx: Context, st: State) returns (s0: State, s1: State, s2: State, done: State)
    requires s.While? && Valid(st)
    ensures WhileStaged(s, ctx, st, s0, s1, s2, done)
  {
    hide Extends, Valid, BindCondition, BindStmt, AddAntecedent, FinishFlowLabel, LoopContext;
    var pre, preBody, post := |st.graph|, |st.graph| + 1, |st.graph| + 2;
    s0 := NewLabels(st, LOOP).(flow := pre);
    s1 := BindCondition(s.cond, preBody, post, ctx.exceptionTarget, s0);
    var t1 := Resume(s1, preBody);
    s2 := BindStmt(s.body, LoopContext(ctx, post, pre), t1);
    var s3 := Join(s2, pre);
    done := JoinFrom(s3, pre, st.flow);
    AppendEarlier(st, s0, LOOP);
    ConditionEarlier(s.cond, preBody, post, ctx.exceptionTarget, s0);
    ResumeEarlier(s1, preBody);
    StmtEarlier(s.body, LoopContext(ctx, post, pre), t1);
    JoinEarlier(s2, pre);
    EarlierTrans(s0, s1, t1);
    EarlierTrans(s0, t1, s2);
    EarlierTrans(s1, t1, s2);
    EarlierTrans(st, s0, s2);
    EarlierTrans(st, s2, s3);
    assert st.flow < |s3.graph| by { FlowInRange(st); ExtendsLength(st.graph, s3.graph); }
    JoinFromEarlier(s3, pre, st.flow);
    EarlierTrans(s2, s3, done);
    EarlierTrans(s1, s2, done);
    EarlierTrans(s0, s1, done);
  }

  lemma {:induction false} WhileSound(s: Stmt, ctx: Context, st: State, v: View, loose: bool, labels: set<string>,
                                      m: Machine)
    requires s.While? && Enters(v, ctx, loose, st, BindLive(s, ctx, st), m.past)
    requires labels == WrappingNames(ctx) && (v.w.precise ==> Simple(s, v.exceptionTarget.Some?, labels))
    ensures Settled(v, ctx, loose, BindLive(s, ctx, st), ExecWhile(s, labels, m))
    decreases |m.future|, s, 2
  {
    hide Good, Into, Extends, Covered, Valid, Fits, Explains, BindCondition, BindStmt, AddAntecedent, FinishFlowLabel,
         LoopContext, ExecWhile;
    var s0, s1, s2, done := WhileStages(s, ctx, st);
    var pre := |st.graph|;
    ResumeEarlier(done, |st.graph| + 2);
    LoopFlowInRange(st, s0, s1, s2, pre);
    LoopTop(v, ctx, loose, st, BindLive(s, ctx, st), s0, Join(s2, pre), done, pre, st.flow, m.past);
    WhileIterates(s, ctx, st, v, loose, labels, m);
  }

  lemma LoopFlowInRange(st: State, s0: State, s1: State, s2: State, pre: FlowId)
    requires Valid(st) && Earlier(st, s0) && Earlier(s0, s1) && Earlier(s1, s2)
    ensures st.flow < |Join(s2, pre).graph| && Earlier(s0, Join(s2, pre))
  {
    hide Extends, AddAntecedent;
    JoinEarlier(s2, pre);
    EarlierTrans(s1, s2, Join(s2, pre));
    EarlierTrans(s0, s1, Join(s2, pre));
    EarlierTrans(st, s0, Join(s2, pre));
    ExtendsLength(st.graph, Join(s2, pre).graph);
  }

  /** A loop is entered through its loop label. */
  lemma LoopTop(v: View, ctx: Context, loose: bool, st: State, out: State, s0: State, before: State, done: State,
                pre: FlowId, top: FlowId, past: seq<Event>)
    requires Around(v, ctx, loose, st, out) && Good(v.w, top, v.fixed, past)
    requires Earlier(s0, before) && Valid(before) && top < |before.graph|
    requires done == JoinFrom(before, pre, top) && Extends(done.graph, out.graph)
    requires IsJoin(s0.graph, pre)
    ensures Good(v.w, pre, v.fixed, past)
  {
    hide Good, Into, Extends, Covered, Valid, Fits, AddAntecedent;
    JoinFromEarlier(before, pre, top);
    ExtendsTrans(done.graph, out.graph, v.settled);
    ExtendsTrans(done.graph, v.settled, v.w.graph);
    ExtendsTrans(before.graph, done.graph, v.w.graph);
    JoinKept(s0.graph, before.graph, pre);
    JoinKept(before.graph, done.graph, pre);
    IntoAdded(v.w, before.graph, pre, top, v.fixed, past);
    IntoLoop(v.w, done.graph, pre, v.fixed, past);
  }

  lemma {:induction false} WhileIterates(s: Stmt, ctx: Context, st: State, v: View, loose: bool, labels: set<string>,
                                         m: Machine)
    requires s.While? && Around(v, ctx, loose, st, BindLive(s, ctx, st))
    requires labels == WrappingNames(ctx) && (v.w.precise ==> Simple(s, v.exceptionTarget.Some?, labels))
    requires Good(v.w, |st.graph|, v.fixed, m.past) && Covered(v, m.past)
    ensures Settled(v, ctx, loose, BindLive(s, ctx, st), ExecWhile(s, labels, m))
    decreases |m.future|, s, 1
  {
    hide Good, Into, Extends, Covered, Valid, Fits, Explains, BindCondition, BindStmt, AddAntecedent, FinishFlowLabel,
         LoopContext, Exec, Eval;
    var pre, preBody, post := |st.graph|, |st.graph| + 1, |st.graph| + 2;
    var out := BindLive(s, ctx, st);
    var s0, s1, s2, done := WhileStages(s, ctx, st);
    ResumeEarlier(done, post);
    EarlierTrans(s1, done, out);
    EarlierTrans(s2, done, out);
    ReadyPart(v, ctx, loose, st, out, s0, s1, m.past);
    assert IsJoin(s0.graph, pre) && IsJoin(s0.graph, preBody) && IsJoin(s0.graph, post);
    ConditionSound(s.cond, preBody, post, s0, v, m);
    var c := Eval(s.cond, m);
    LoopLabelsKept(s0, s1, s2, done, pre, preBody, post);
    if !c.outcome.Value? {
      SettledAbrupt(v, ctx, loose, out, c);
    } else if !c.outcome.truthy {
      LeaveAtPost(v, ctx, loose, st, s1, done, post, c.machine.past);
    } else {
      IntoFinished(v.w, s1.graph, preBody, v.fixed, c.machine.past);
      EarlierTrans(st, s0, s1);
      WhileBody(s, ctx, st, v, loose, labels, c.machine, s1, s2, done);
    }
  }

  /** A run that has arrived at the label after a statement. */
  lemma LeaveAtPost(v: View, ctx: Context, loose: bool, st: State, part: State, done: State, post: FlowId,
                    past: seq<Event>)
    requires Around(v, ctx, loose, st, Resume(done, post)) && Earlier(part, done) && IsJoin(done.graph, post)
    requires Into(v.w, part.graph, post, v.fixed, past) && Covered(v, past)
    ensures Good(v.w, Resume(done, post).flow, v.fixed, past)
  {
    hide Good, Into, Extends, Covered, Valid, Fits, FinishFlowLabel;
    IntoExtends(v.w, part.graph, done.graph, post, v.fixed, past);
    ExtendsTrans(done.graph, v.settled, v.w.graph);
    IntoFinished(v.w, done.graph, post, v.fixed, past);
  }

  lemma LoopLabelsKept(s0: State, s1: State, s2: State, done: State, pre: FlowId, preBody: FlowId, post: FlowId)
    requires IsJoin(s0.graph, pre) && IsJoin(s0.graph, preBody) && IsJoin(s0.graph, post)
    requires Earlier(s0, s1) && Earlier(s1, s2) && Earlier(s2, done)
    ensures IsJoin(s1.graph, pre) && IsJoin(s1.graph, preBody) && IsJoin(s1.graph, post)
    ensures IsJoin(s2.graph, pre) && IsJoin(s2.graph, post) && IsJoin(done.graph, pre) && IsJoin(done.graph, post)
  {
    hide Extends, Valid;
    JoinKept(s0.graph, s1.graph, pre);
    JoinKept(s0.graph, s1.graph, preBody);
    JoinKept(s0.graph, s1.graph, post);
    JoinKept(s1.graph, s2.graph, pre);
    JoinKept(s1.graph, s2.graph, post);
    JoinKept(s2.graph, done.graph, pre);
    JoinKept(s2.graph, done.graph, post);
  }

  lemma OutExtends(v: View, ctx: Context, loose: bool, st: State, out: State, part: State)
    requires Around(v, ctx, loose, st, out) && Extends(part.graph, out.graph)
    ensures Extends(part.graph, v.settled) && Extends(part.graph, v.w.graph)
  {
    hide Extends, Valid, Fits, ExceptionLabel;
    ExtendsTrans(part.graph, out.graph, v.settled);
    ExtendsTrans(part.graph, v.settled, v.w.graph);
  }

  lemma {:induction false} WhileBody(s: Stmt, ctx: Context, st: State, v: View, loose: bool, labels: set<string>,
                                     m: Machine,
                                     s1: State, s2: State, done: State)
    requires s.While? && Around(v, ctx, loose, st, BindLive(s, ctx, st))
    requires labels == WrappingNames(ctx) && (v.w.precise ==> Simple(s, v.exceptionTarget.Some?, labels))
    requires s2 == BindStmt(s.body, LoopContext(ctx, |st.graph| + 2, |st.graph|), Resume(s1, |st.graph| + 1))
    requires done == JoinFrom(Join(s2, |st.graph|), |st.graph|, st.flow)
    requires BindLive(s, ctx, st) == Resume(done, |st.graph| + 2)
    requires Earlier(st, s1) && Earlier(s1, Resume(s1, |st.graph| + 1)) && Earlier(Resume(s1, |st.graph| + 1), s2)
    requires Earlier(s2, done)
    requires Extends(Join(s2, |st.graph|).graph, done.graph)
    requires IsJoin(s1.graph, |st.graph|) && IsJoin(s1.graph, |st.graph| + 2) && IsJoin(s2.graph, |st.graph|)
    requires IsJoin(done.graph, |st.graph|) && IsJoin(done.graph, |st.graph| + 2)
    requires Good(v.w, Resume(s1, |st.graph| + 1).flow, v.fixed, m.past) && Covered(v, m.past)
    ensures var r := Exec(s.body, {}, m);
            Settled(v, ctx, loose, BindLive(s, ctx, st),
                    if GoesOn(r.outcome, labels) then ExecWhile(s, labels, r.machine) else LeaveLoop(r))
    decreases |m.future|, s, 2
  {
    hide Good, Into, Extends, Covered, Valid, Fits, Explains, BindCondition, BindStmt, AddAntecedent, FinishFlowLabel,
         LoopContext, Exec, ExecWhile;
    var pre, preBody, post := |st.graph|, |st.graph| + 1, |st.graph| + 2;
    var out := BindLive(s, ctx, st);
    var r := Exec(s.body, {}, m);
    EarlierTrans(st, s1, Resume(s1, preBody));
    BodySound(s.body, ctx, loose, labels, st, out, v, m, Resume(s1, preBody), s2, done, pre, post);
    if GoesOn(r.outcome, labels) {
      LoopBack(v, ctx, loose, st, out, pre, s2, done, r);
      WhileIterates(s, ctx, st, v, loose, labels, r.machine);
    }
  }

  /** From the end of a loop body to the loop label. */
  lemma LoopBack(v: View, ctx: Context, loose: bool, st: State, out: State, pre: FlowId, body: State, done: State,
                 r: Run)
    requires Around(v, ctx, loose, st, out) && out.graph == done.graph
    requires ComesBack(v, pre, body, r) && Valid(body) && IsJoin(body.graph, pre) && IsJoin(done.graph, pre)
    requires Extends(Join(body, pre).graph, done.graph)
    ensures Good(v.w, pre, v.fixed, r.machine.past) && Covered(v, r.machine.past)
  {
    hide Good, Into, Extends, Covered, Valid, Fits, AddAntecedent;
    ExtendsTrans(done.graph, v.settled, v.w.graph);
    JoinBack(v, pre, body, done.graph, r);
    IntoLoop(v.w, done.graph, pre, v.fixed, r.machine.past);
  }

  /** One run of a loop body: it comes back, or leaves the loop. */
  lemma {:induction false} BodySound(body: Stmt, ctx: Context, loose: bool, labels: set<string>, st: State, out: State,
                                     v: View, m: Machine,
                                     from: State, to: State, done: State, pre: FlowId, post: FlowId)
    requires Around(v, ctx, loose, st, out) && labels == WrappingNames(ctx)
    requires v.w.precise ==> Simple(body, v.exceptionTarget.Some?, {})
    requires to == BindStmt(body, LoopContext(ctx, post, pre), from) && out == Resume(done, post)
    requires Earlier(st, from) && Earlier(from, to) && Earlier(to, done)
    requires IsJoin(from.graph, pre) && IsJoin(from.graph, post) && IsJoin(done.graph, post)
    requires Good(v.w, from.flow, v.fixed, m.past) && Covered(v, m.past)
    ensures var r := Exec(body, {}, m);
            if GoesOn(r.outcome, labels) then ComesBack(v, pre, to, r) else Settled(v, ctx, loose, out, LeaveLoop(r))
    decreases |m.future|, body, 4
  {
    hide Good, Into, Extends, Covered, Valid, Fits, Explains, BindStmt, AddAntecedent, FinishFlowLabel, LoopContext,
         Exec, ComesBack;
    var r := Exec(body, {}, m);
    ResumeEarlier(done, post);
    EarlierTrans(to, done, out);
    ReadyPart(v, ctx, loose, st, out, from, to, m.past);
    FitsLoop(v, ctx, loose, from.graph, post, pre);
    StmtSound(body, LoopContext(ctx, post, pre), from, v, loose, {}, m);
    ExtendsTrans(done.graph, v.settled, v.w.graph);
    if GoesOn(r.outcome, labels) {
      GoOnSound(v, ctx, loose, pre, post, to, r);
    } else {
      LeaveLoopSound(v, ctx, loose, pre, post, to, done, r);
    }
  }

  // ----- do -----

  ghost predicate DoStaged(s: Stmt, ctx: Context, st: State, s0: State, b: State, s1: State, s2: State, done: State) {
    && s.Do? && Valid(st)
    && s0 == NewLabels(st, LOOP).(flow := |st.graph|)
    && b == BindStmt(s.body, LoopContext(ctx, |st.graph| + 2, |st.graph| + 1), s0)
    && s1 == Resume(Join(b, |st.graph| + 1), |st.graph| + 1)
    && s2 == BindCondition(s.cond, |st.graph|, |st.graph| + 2, ctx.exceptionTarget, s1)
    && done == JoinFrom(s2, |st.graph|, st.flow) && BindLive(s, ctx, st) == Resume(done, |st.graph| + 2)
    && Earlier(st, s0) && Earlier(s0, b) && Earlier(b, s1) && Earlier(s1, s2) && Earlier(s2, done)
    && Earlier(st, s1) && Earlier(st, s2) && Earlier(s0, s1) && Earlier(s0, s2) && Earlier(b, done) && Earlier(s1, done)
  }

  lemma DoStages(s: Stmt, ctx: Context, st: State) returns (s0: State, b: State, s1: State, s2: State, done: State)
    requires s.Do? && Valid(st)
    ensures DoStaged(s, ctx, st, s0, b, s1, s2, done)
  {
    hide Extends, Valid, BindCondition, BindStmt, AddAntecedent, FinishFlowLabel, LoopContext;
    var pre, preCondition, post := |st.graph|, |st.graph| + 1, |st.graph| + 2;
    s0 := NewLabels(st, LOOP).(flow := pre);
    b := BindStmt(s.body, LoopContext(ctx, post, preCondition), s0);
    s1 := Resume(Join(b, preCondition), preCondition);
    s2 := BindCondition(s.cond, pre, post, ctx.exceptionTarget, s1);
    done := JoinFrom(s2, pre, st.flow);
    AppendEarlier(st, s0, LOOP);
    StmtEarlier(s.body, LoopContext(ctx, post, preCondition), s0);
    JoinEarlier(b, preCondition);
    ResumeEarlier(Join(b, preCondition), preCondition);
    EarlierTrans(b, Join(b, preCondition), s1);
    ConditionEarlier(s.cond, pre, post, ctx.exceptionTarget, s1);
    EarlierTrans(s0, b, s1);
    EarlierTrans(s0, s1, s2);
    EarlierTrans(st, s0, s1);
    EarlierTrans(st, s1, s2);
    assert st.flow < |s2.graph| by { FlowInRange(st); ExtendsLength(st.graph, s2.graph); }
    JoinFromEarlier(s2, pre, st.flow);
    EarlierTrans(s1, s2, done);
    EarlierTrans(b, s1, done);
  }

  lemma {:induction false} DoSound(s: Stmt, ctx: Context, st: State, v: View, loose: bool, labels: set<string>,
                                   m: Machine)
    requires s.Do? && Enters(v, ctx, loose, st, BindLive(s, ctx, st), m.past)
    requires labels == WrappingNames(ctx) && (v.w.precise ==> Simple(s, v.exceptionTarget.Some?, labels))
    ensures Settled(v, ctx, loose, BindLive(s, ctx, st), ExecDo(s, labels, m))
    decreases |m.future|, s, 2
  {
    hide Good, Into, Extends, Covered, Valid, Fits, Explains, BindCondition, BindStmt, AddAntecedent, FinishFlowLabel,
         LoopContext, ExecDo;
    var s0, b, s1, s2, done := DoStages(s, ctx, st);
    ResumeEarlier(done, |st.graph| + 2);
    assert st.flow < |s2.graph| by { FlowInRange(st); ExtendsLength(st.graph, s2.graph); }
    LoopTop(v, ctx, loose, st, BindLive(s, ctx, st), s0, s2, done, |st.graph|, st.flow, m.past);
    DoIterates(s, ctx, st, v, loose, labels, m);
  }

  lemma {:induction false} DoIterates(s: Stmt, ctx: Context, st: State, v: View, loose: bool, labels: set<string>,
                                      m: Machine)
    requires s.Do? && Around(v, ctx, loose, st, BindLive(s, ctx, st))
    requires labels == WrappingNames(ctx) && (v.w.precise ==> Simple(s, v.exceptionTarget.Some?, labels))
    requires Good(v.w, |st.graph|, v.fixed, m.past) && Covered(v, m.past)
    ensures Settled(v, ctx, loose, BindLive(s, ctx, st), ExecDo(s, labels, m))
    decreases |m.future|, s, 1
  {
    hide Good, Into, Extends, Covered, Valid, Fits, Explains, BindCondition, BindStmt, AddAntecedent, FinishFlowLabel,
         LoopContext, Exec, Eval, ComesBack;
    var pre, preCondition, post := |st.graph|, |st.graph| + 1, |st.graph| + 2;
    var out := BindLive(s, ctx, st);
    var s0, b, s1, s2, done := DoStages(s, ctx, st);
    assert IsJoin(s0.graph, pre) && IsJoin(s0.graph, preCondition) && IsJoin(s0.graph, post);
    JoinKept(s0.graph, b.graph, preCondition);
    JoinKept(s0.graph, s1.graph, preCondition);
    LoopLabelsKept(s0, s1, s2, done, pre, preCondition, post);
    BodySound(s.body, ctx, loose, labels, st, out, v, m, s0, b, done, preCondition, post);
    var r := Exec(s.body, {}, m);
    if GoesOn(r.outcome, labels) {
      ResumeEarlier(done, post);
      EarlierTrans(s2, done, out);
      ExtendsRefl(s1.graph);
      OutExtends(v, ctx, loose, st, out, s1);
      JoinBack(v, preCondition, b, s1.graph, r);
      IntoFinished(v.w, s1.graph, preCondition, v.fixed, r.machine.past);
      assert FinishFlowLabel(s1.graph, preCondition) == s1.flow;
      assert Covered(v, r.machine.past) by { ComesBackCovered(v, preCondition, b, r); }
      ReadyPart(v, ctx, loose, st, out, s1, s2, r.machine.past);
      ConditionSound(s.cond, pre, post, s1, v, r.machine);
      var c := Eval(s.cond, r.machine);
      if !c.outcome.Value? {
        SettledAbrupt(v, ctx, loose, out, c);
      } else if !c.outcome.truthy {
        LeaveAtPost(v, ctx, loose, st, s2, done, post, c.machine.past);
      } else {
        IntoExtends(v.w, s2.graph, done.graph, pre, v.fixed, c.machine.past);
        ExtendsTrans(done.graph, v.settled, v.w.graph);
        IntoLoop(v.w, done.graph, pre, v.fixed, c.machine.past);
        DoIterates(s, ctx, st, v, loose, labels, c.machine);
      }
    }
  }

  lemma ComesBackCovered(v: View, pre: FlowId, body: State, r: Run)
    requires ComesBack(v, pre, body, r)
    ensures Covered(v, r.machine.past)
  {
  }

  // ----- drifting: events that no walk needs to account for -----

  /** In the coarse reading everything may happen; in the precise one, anything but assignments. */
  ghost predicate Drifts(w: World, m: Machine, m': Machine) {
    w.precise ==> Quiet(m, m')
  }

  lemma GoodDrifts(w: World, n: FlowId, fixed: Env, m: Machine, m': Machine)
    requires Good(w, n, fixed, m.past) && Drifts(w, m, m')
    ensures Good(w, n, fixed, m'.past)
  {
    if w.precise {
      hide Good;
      GoodQuiet(w, n, fixed, m, m');
    }
  }

  lemma IntoDrifts(w: World, g: Graph, join: FlowId, fixed: Env, m: Machine, m': Machine)
    requires Into(w, g, join, fixed, m.past) && Drifts(w, m, m')
    ensures Into(w, g, join, fixed, m'.past)
  {
    hide Good;
    var a :| a in Antecedents(g, join) && Good(w, a, fixed, m.past);
    GoodDrifts(w, a, fixed, m, m');
  }

  lemma CoveredDrifts(v: View, m: Machine, m': Machine)
    requires Covered(v, m.past) && Drifts(v.w, m, m')
    ensures Covered(v, m'.past)
  {
    if v.exceptionTarget.Some? {
      IntoDrifts(v.w, v.settled, v.exceptionTarget.value, v.fixed, m, m');
    }
  }

  lemma {:induction false} AssignsNothingQuiet(e: Expr, m: Machine)
    requires AssignsNothing(e)
    ensures Quiet(m, Eval(e, m).machine)
    decreases e
  {
    hide Quiet, Conclude;
    QuietRefl(m);
    match e
    case Paren(x) => AssignsNothingQuiet(x, m); ConcludesQuietly(e, m, Eval(x, m));
    case Not(x) => AssignsNothingQuiet(x, m); ConcludesQuietly(e, m, Eval(x, m));
    case Call(_, _, x) => AssignsNothingQuiet(x, m); ConcludesQuietly(e, m, Eval(x, m));
    case Logical(op, l, r) =>
      AssignsNothingQuiet(l, m);
      TwoQuiet(e, r, m, Eval(l, m));
    case Binary(_, l, r) =>
      AssignsNothingQuiet(l, m);
      TwoQuiet(e, r, m, Eval(l, m));
    case Conditional(c, a, b) =>
      AssignsNothingQuiet(c, m);
      TwoQuiet(e, a, m, Eval(c, m));
      TwoQuiet(e, b, m, Eval(c, m));
    case _ => ConcludesQuietly(e, m, ExprRun(Cut, m));
  }

  lemma ConcludesQuietly(e: Expr, m: Machine, a: ExprRun)
    requires Quiet(m, a.machine)
    ensures forall forced :: Quiet(m, Conclude(e, forced, a.machine).machine)
  {
    hide Quiet, Conclude;
    forall forced
      ensures Quiet(m, Conclude(e, forced, a.machine).machine)
    {
      ConcludeQuiet(e, forced, a.machine);
      QuietTrans(m, a.machine, Conclude(e, forced, a.machine).machine);
    }
  }

  lemma {:induction false} TwoQuiet(e: Expr, x: Expr, m: Machine, a: ExprRun)
    requires Quiet(m, a.machine) && AssignsNothing(x) && x < e
    ensures Quiet(m, Eval(x, a.machine).machine)
    ensures forall forced :: Quiet(m, Conclude(e, forced, a.machine).machine)
    ensures forall forced :: Quiet(m, Conclude(e, forced, Eval(x, a.machine).machine).machine)
    decreases e, 0
  {
    hide Quiet, Conclude, Eval;
    AssignsNothingQuiet(x, a.machine);
    var b := Eval(x, a.machine);
    QuietTrans(m, a.machine, b.machine);
    ConcludesQuietly(e, m, a);
    ConcludesQuietly(e, m, b);
  }

  // ----- for -----

  lemma OptionalConditionEarlier(e: Option<Expr>, t: FlowId, f: FlowId, exceptionTarget: Option<FlowId>, st: State)
    requires Valid(st)
    ensures Earlier(st, BindOptionalCondition(e, t, f, exceptionTarget, st))
  {
    OptionalConditionGrows(e, t, f, exceptionTarget, st);
    GrowsEarlier({t, f} + Optional(exceptionTarget), st, BindOptionalCondition(e, t, f, exceptionTarget, st));
  }

  /** An absent condition is one that is true. */
  lemma OptionalConditionSound(e: Option<Expr>, t: FlowId, f: FlowId, st: State, v: View, m: Machine)
    requires Ready(v, st, BindOptionalCondition(e, t, f, v.exceptionTarget, st), m.past)
    requires IsJoin(st.graph, t) && IsJoin(st.graph, f)
    ensures var r := EvalOptional(e, m);
            && (r.outcome.Value? ==>
                  Into(v.w, BindOptionalCondition(e, t, f, v.exceptionTarget, st).graph, if r.outcome.truthy then t else f, v.fixed, r.machine.past))
            && (!r.outcome.Cut? ==> Covered(v, r.machine.past))
  {
    hide Good, Into, Extends, Covered, Quiet, Eval, BindCondition, AddAntecedent, ExceptionLabel;
    match e
    case Some(x) => ConditionSound(x, t, f, st, v, m);
    case None =>
      var out := AddConditions(st, t, f, None);
      OptionalConditionEarlier(e, t, f, v.exceptionTarget, st);
      ReadyAlive(v, st, out, m.past);
      var s1 := Join(st, t);
      JoinEarlier(st, t);
      assert out == JoinFrom(s1, f, UNREACHABLE_FLOW) by { AbsentCondition(st, t, f); }
      JoinFromEarlier(s1, f, UNREACHABLE_FLOW);
      ExtendsTrans(st.graph, out.graph, v.settled);
      ExtendsTrans(st.graph, v.settled, v.w.graph);
      IntoAdded(v.w, st.graph, t, st.flow, v.fixed, m.past);
      IntoExtends(v.w, s1.graph, out.graph, t, v.fixed, m.past);
  }

  lemma AbsentCondition(st: State, t: FlowId, f: FlowId)
    requires Valid(st) && !Dead(st)
    ensures AddConditions(st, t, f, None) == JoinFrom(Join(st, t), f, UNREACHABLE_FLOW)
  {
    var s1 := Join(st, t);
    assert !IsUnreachable(s1.graph, s1.flow);
  }

  ghost predicate ForStaged(s: Stmt, ctx: Context, st: State, s0: State, s1: State, s2: State, s3: State, s4: State,
                            done: State) {
    && s.For? && Valid(st)
    && s0 == NewLabels(st, LOOP)
    && s1 == BindOptional(s.init, ctx.exceptionTarget, s0)
    && s2 == BindOptionalCondition(s.test, |st.graph| + 1, |st.graph| + 2, ctx.exceptionTarget, s1.(flow := |st.graph|))
    && s3 == BindStmt(s.body, LoopContext(ctx, |st.graph| + 2, |st.graph|), Resume(s2, |st.graph| + 1))
    && s4 == BindOptional(s.incr, ctx.exceptionTarget, s3)
    && done == JoinFrom(Join(s4, |st.graph|), |st.graph|, s1.flow)
    && BindLive(s, ctx, st) == Resume(done, |st.graph| + 2)
    && Earlier(st, s0) && Earlier(s0, s1) && Earlier(s1.(flow := |st.graph|), s2) && Earlier(s2, s3)
    && Earlier(st, s1.(flow := |st.graph|)) && Earlier(st, s2) && Earlier(Resume(s2, |st.graph| + 1), s3)
    && Earlier(s0, s2) && Earlier(s3, s4) && Earlier(s2, Resume(s2, |st.graph| + 1))
    && Earlier(s0, s3) && Earlier(st, s3) && Earlier(s4, done) && Earlier(s3, done) && Earlier(s2, done)
    && Earlier(s1, done)
    && Earlier(s0, Join(s4, |st.graph|)) && s1.flow < |Join(s4, |st.graph|).graph|
    && Extends(Join(s4, |st.graph|).graph, done.graph)
  }

  lemma ForStages(s: Stmt, ctx: Context, st: State)
    returns (s0: State, s1: State, s2: State, s3: State, s4: State, done: State)
    requires s.For? && Valid(st)
    ensures ForStaged(s, ctx, st, s0, s1, s2, s3, s4, done)
  {
    hide Extends, Valid, BindOptional, BindOptionalCondition, BindStmt, AddAntecedent, FinishFlowLabel, LoopContext;
    var pre, preBody, post := |st.graph|, |st.graph| + 1, |st.graph| + 2;
    s0 := NewLabels(st, LOOP);
    s1 := BindOptional(s.init, ctx.exceptionTarget, s0);
    var t0 := s1.(flow := pre);
    s2 := BindOptionalCondition(s.test, preBody, post, ctx.exceptionTarget, t0);
    s3 := BindStmt(s.body, LoopContext(ctx, post, pre), Resume(s2, preBody));
    s4 := BindOptional(s.incr, ctx.exceptionTarget, s3);
    done := JoinFrom(Join(s4, pre), pre, s1.flow);
    assert s0.flow < |s0.graph| by { FlowInRange(st); }
    AppendEarlier(st, s0, LOOP);
    OptionalEarlier(s.init, ctx.exceptionTarget, s0);
    ExtendsLength(s0.graph, s1.graph);
    MoveEarlier(s1, t0);
    OptionalConditionEarlier(s.test, preBody, post, ctx.exceptionTarget, t0);
    ResumeEarlier(s2, preBody);
    StmtEarlier(s.body, LoopContext(ctx, post, pre), Resume(s2, preBody));
    OptionalEarlier(s.incr, ctx.exceptionTarget, s3);
    JoinEarlier(s4, pre);
    EarlierTrans(st, s0, s1);
    EarlierTrans(st, s1, t0);
    EarlierTrans(s1, t0, s2);
    EarlierTrans(s0, s1, s2);
    EarlierTrans(st, s0, s2);
    EarlierTrans(s2, Resume(s2, preBody), s3);
    EarlierTrans(s0, s2, s3);
    EarlierTrans(st, s0, s3);
    EarlierTrans(s1, s2, s3);
    EarlierTrans(s3, s4, Join(s4, pre));
    EarlierTrans(s0, s3, Join(s4, pre));
    EarlierTrans(s1, s3, Join(s4, pre));
    assert s1.flow < |Join(s4, pre).graph| by { FlowInRange(s1); ExtendsLength(s1.graph, Join(s4, pre).graph); }
    JoinFromEarlier(Join(s4, pre), pre, s1.flow);
    EarlierTrans(s4, Join(s4, pre), done);
    EarlierTrans(s3, s4, done);
    EarlierTrans(s2, s3, done);
    EarlierTrans(s1, s3, done);
  }

  lemma {:induction false} ForSound(s: Stmt, ctx: Context, st: State, v: View, loose: bool, labels: set<string>,
                                    m: Machine)
    requires s.For? && Enters(v, ctx, loose, st, BindLive(s, ctx, st), m.past)
    requires labels == WrappingNames(ctx) && (v.w.precise ==> Simple(s, v.exceptionTarget.Some?, labels))
    ensures Settled(v, ctx, loose, BindLive(s, ctx, st), ExecLive(s, labels, m))
    decreases |m.future|, s, 2
  {
    hide Good, Into, Extends, Covered, Valid, Fits, Explains, BindOptional, BindOptionalCondition, BindStmt,
         AddAntecedent, FinishFlowLabel, LoopContext, ExecFor, EvalOptional;
    var out := BindLive(s, ctx, st);
    var s0, s1, s2, s3, s4, done := ForStages(s, ctx, st);
    ResumeEarlier(done, |st.graph| + 2);
    EarlierTrans(s1, done, out);
    assert s0.flow == st.flow;
    ReadyPart(v, ctx, loose, st, out, s0, s1, m.past);
    OptionalSound(s.init, s0, v, m);
    var a := EvalOptional(s.init, m);
    if a.outcome.Value? {
      LoopTop(v, ctx, loose, st, out, s0, Join(s4, |st.graph|), done, |st.graph|, s1.flow, a.machine.past);
      ForIterates(s, ctx, st, v, loose, labels, a.machine);
    } else {
      SettledAbrupt(v, ctx, loose, out, a);
    }
  }

  lemma {:induction false} ForIterates(s: Stmt, ctx: Context, st: State, v: View, loose: bool, labels: set<string>,
                                       m: Machine)
    requires s.For? && Around(v, ctx, loose, st, BindLive(s, ctx, st))
    requires labels == WrappingNames(ctx) && (v.w.precise ==> Simple(s, v.exceptionTarget.Some?, labels))
    requires Good(v.w, |st.graph|, v.fixed, m.past) && Covered(v, m.past)
    ensures Settled(v, ctx, loose, BindLive(s, ctx, st), ExecFor(s, labels, m))
    decreases |m.future|, s, 1
  {
    hide Good, Into, Extends, Covered, Valid, Fits, Explains, BindOptional, BindOptionalCondition, BindStmt,
         AddAntecedent, FinishFlowLabel, LoopContext, Exec, EvalOptional;
    var pre, preBody, post := |st.graph|, |st.graph| + 1, |st.graph| + 2;
    var out := BindLive(s, ctx, st);
    var s0, s1, s2, s3, s4, done := ForStages(s, ctx, st);
    var t0 := s1.(flow := pre);
    ResumeEarlier(done, post);
    EarlierTrans(s2, done, out);
    ReadyPart(v, ctx, loose, st, out, t0, s2, m.past);
    assert IsJoin(s0.graph, pre) && IsJoin(s0.graph, preBody) && IsJoin(s0.graph, post);
    LoopLabelsKept(s0, s2, s3, done, pre, preBody, post);
    JoinKept(s0.graph, s1.graph, preBody);
    JoinKept(s0.graph, s1.graph, post);
    OptionalConditionSound(s.test, preBody, post, t0, v, m);
    var c := EvalOptional(s.test, m);
    if !c.outcome.Value? {
      SettledAbrupt(v, ctx, loose, out, c);
    } else if !c.outcome.truthy {
      LeaveAtPost(v, ctx, loose, st, s2, done, post, c.machine.past);
    } else {
      IntoFinished(v.w, s2.graph, preBody, v.fixed, c.machine.past);
      EarlierTrans(st, s2, Resume(s2, preBody));
      BodySound(s.body, ctx, loose, labels, st, out, v, c.machine, Resume(s2, preBody), s3, done, pre, post);
      if GoesOn(Exec(s.body, {}, c.machine).outcome, labels) {
        ForIncrement(s, ctx, st, v, loose, labels, c.machine, s3, s4, done);
      }
    }
  }

  /** The incrementor. A continue goes straight to the loop label, past the nodes of the incrementor. */
  lemma {:induction false} ForIncrement(s: Stmt, ctx: Context, st: State, v: View, loose: bool, labels: set<string>,
                                        m: Machine,
                                        s3: State, s4: State, done: State)
    requires s.For? && Around(v, ctx, loose, st, BindLive(s, ctx, st))
    requires labels == WrappingNames(ctx) && (v.w.precise ==> Simple(s, v.exceptionTarget.Some?, labels))
    requires BindLive(s, ctx, st) == Resume(done, |st.graph| + 2) && s4 == BindOptional(s.incr, ctx.exceptionTarget, s3)
    requires Earlier(st, s3) && Earlier(s3, s4) && Earlier(s4, done) && Extends(Join(s4, |st.graph|).graph, done.graph)
    requires IsJoin(s3.graph, |st.graph|) && IsJoin(done.graph, |st.graph|)
    requires GoesOn(Exec(s.body, {}, m).outcome, labels) && ComesBack(v, |st.graph|, s3, Exec(s.body, {}, m))
    ensures var i := EvalOptional(s.incr, Exec(s.body, {}, m).machine);
            Settled(v, ctx, loose, BindLive(s, ctx, st), if i.outcome.Value? then ExecFor(s, labels, i.machine) else Abrupt(i))
    decreases |m.future|, s, 0
  {
    hide Good, Into, Extends, Covered, Valid, Fits, Explains, BindOptional, BindStmt, AddAntecedent, FinishFlowLabel,
         Exec, EvalOptional, ExecFor, BindLive;
    var pre, out := |st.graph|, BindLive(s, ctx, st);
    var r := Exec(s.body, {}, m);
    var i := EvalOptional(s.incr, r.machine);
    ResumeEarlier(done, pre + 2);
    EarlierTrans(s4, done, out);
    if r.outcome.Completed? {
      ReadyPart(v, ctx, loose, st, out, s3, s4, r.machine.past);
      OptionalSound(s.incr, s3, v, r.machine);
      if i.outcome.Value? {
        JoinKept(s3.graph, s4.graph, pre);
        LoopBack(v, ctx, loose, st, out, pre, s4, done, Run(Completed, i.machine));
      }
    } else {
      IncrementDrifts(s, labels, v, m);
      IntoDrifts(v.w, s3.graph, pre, v.fixed, r.machine, i.machine);
      CoveredDrifts(v, r.machine, i.machine);
      EarlierTrans(s3, s4, done);
      IntoExtends(v.w, s3.graph, done.graph, pre, v.fixed, i.machine.past);
      ExtendsTrans(done.graph, v.settled, v.w.graph);
      IntoLoop(v.w, done.graph, pre, v.fixed, i.machine.past);
    }
    if i.outcome.Value? {
      ForIterates(s, ctx, st, v, loose, labels, i.machine);
    } else {
      SettledAbrupt(v, ctx, loose, out, i);
    }
  }

  lemma IncrementDrifts(s: Stmt, labels: set<string>, v: View, m: Machine)
    requires s.For? && (v.w.precise ==> Simple(s, v.exceptionTarget.Some?, labels))
    requires GoesOn(Exec(s.body, {}, m).outcome, labels) && !Exec(s.body, {}, m).outcome.Completed?
    ensures Drifts(v.w, Exec(s.body, {}, m).machine, EvalOptional(s.incr, Exec(s.body, {}, m).machine).machine)
  {
    hide Exec, Eval;
    var r := Exec(s.body, {}, m);
    ExecWithin(s.body, {}, m);
    if s.incr.Some? {
      if v.w.precise {
        assert ContinueTo(r.outcome.destination) in Escapes(s.body, {});
        AssignsNothingQuiet(s.incr.value, r.machine);
      }
    } else {
      QuietRefl(r.machine);
    }
  }

  // ----- for-of -----

  lemma MutateEarlier(st: State, exceptionTarget: Option<FlowId>, x: string)
    requires Valid(st)
    ensures Earlier(st, Mutate(st, exceptionTarget, x))
  {
    MutateGrows(st, exceptionTarget, x);
    GrowsEarlier(Optional(exceptionTarget), st, Mutate(st, exceptionTarget, x));
  }

  ghost predicate ForOfStaged(s: Stmt, ctx: Context, st: State, s0: State, s1: State, t1: State, s2: State, s3: State,
                              done: State) {
    && s.ForOf? && Valid(st)
    && s0 == NewLabels(st, [LoopLabel([]), BranchLabel([])])
    && s1 == BindExpr(s.expr, AsValue, ctx.exceptionTarget, s0)
    && t1 == Join(s1.(flow := |st.graph|), |st.graph| + 1)
    && s2 == Mutate(t1, ctx.exceptionTarget, s.target)
    && s3 == BindStmt(s.body, LoopContext(ctx, |st.graph| + 1, |st.graph|), s2)
    && done == JoinFrom(Join(s3, |st.graph|), |st.graph|, s1.flow)
    && BindLive(s, ctx, st) == Resume(done, |st.graph| + 1)
    && Earlier(st, s0) && Earlier(s0, s1) && Earlier(t1, s2) && Earlier(s2, s3) && Earlier(s3, done)
    && Earlier(s1, done) && Earlier(t1, done) && Earlier(st, t1) && Earlier(s0, t1) && Earlier(st, s2)
    && Earlier(s0, s2) && Earlier(s2, done)
    && Earlier(s0, s3) && Earlier(s0, Join(s3, |st.graph|)) && s1.flow < |Join(s3, |st.graph|).graph|
    && Extends(Join(s3, |st.graph|).graph, done.graph) && Valid(s1.(flow := |st.graph|)) && Extends(s0.graph, s1.graph)
  }

  lemma ForOfStages(s: Stmt, ctx: Context, st: State)
    returns (s0: State, s1: State, t1: State, s2: State, s3: State, done: State)
    requires s.ForOf? && Valid(st)
    ensures ForOfStaged(s, ctx, st, s0, s1, t1, s2, s3, done)
  {
    hide Extends, Valid, BindExpr, BindStmt, AddAntecedent, FinishFlowLabel, LoopContext, Mutate;
    var pre, post := |st.graph|, |st.graph| + 1;
    var nodes := [LoopLabel([]), BranchLabel([])];
    s0 := NewLabels(st, nodes);
    s1 := BindExpr(s.expr, AsValue, ctx.exceptionTarget, s0);
    var t0 := s1.(flow := pre);
    t1 := Join(t0, post);
    s2 := Mutate(t1, ctx.exceptionTarget, s.target);
    s3 := BindStmt(s.body, LoopContext(ctx, post, pre), s2);
    done := JoinFrom(Join(s3, pre), pre, s1.flow);
    assert s0.flow < |s0.graph| by { FlowInRange(st); }
    AppendEarlier(st, s0, nodes);
    ExprEarlier(s.expr, AsValue, ctx.exceptionTarget, s0);
    ExtendsLength(s0.graph, s1.graph);
    MoveEarlier(s1, t0);
    JoinEarlier(t0, post);
    MutateEarlier(t1, ctx.exceptionTarget, s.target);
    StmtEarlier(s.body, LoopContext(ctx, post, pre), s2);
    JoinEarlier(s3, pre);
    EarlierTrans(s1, t0, t1);
    EarlierTrans(s0, s1, t1);
    EarlierTrans(st, s0, t1);
    EarlierTrans(st, t1, s2);
    EarlierTrans(s0, t1, s2);
    EarlierTrans(s1, t1, s2);
    EarlierTrans(s0, s2, s3);
    EarlierTrans(s1, s2, s3);
    EarlierTrans(s0, s3, Join(s3, pre));
    EarlierTrans(s1, s3, Join(s3, pre));
    assert s1.flow < |Join(s3, pre).graph| by { FlowInRange(s1); ExtendsLength(s1.graph, Join(s3, pre).graph); }
    JoinFromEarlier(Join(s3, pre), pre, s1.flow);
    EarlierTrans(s3, Join(s3, pre), done);
    EarlierTrans(s2, s3, done);
    EarlierTrans(t1, s2, done);
    EarlierTrans(s1, s3, done);
  }

  lemma {:induction false} ForOfSound(s: Stmt, ctx: Context, st: State, v: View, loose: bool, labels: set<string>,
                                      m: Machine)
    requires s.ForOf? && Enters(v, ctx, loose, st, BindLive(s, ctx, st), m.past)
    requires labels == WrappingNames(ctx) && (v.w.precise ==> Simple(s, v.exceptionTarget.Some?, labels))
    ensures Settled(v, ctx, loose, BindLive(s, ctx, st), ExecLive(s, labels, m))
    decreases |m.future|, s, 2
  {
    hide Good, Into, Extends, Covered, Valid, Fits, Explains, BindExpr, BindStmt, AddAntecedent, FinishFlowLabel,
         LoopContext, ExecForOf, Eval, Mutate;
    var out := BindLive(s, ctx, st);
    var s0, s1, t1, s2, s3, done := ForOfStages(s, ctx, st);
    ResumeEarlier(done, |st.graph| + 1);
    EarlierTrans(s1, done, out);
    assert s0.flow == st.flow;
    ReadyPart(v, ctx, loose, st, out, s0, s1, m.past);
    ValueSound(s.expr, s0, v, m);
    var a := Eval(s.expr, m);
    if a.outcome.Value? {
      LoopTop(v, ctx, loose, st, out, s0, Join(s3, |st.graph|), done, |st.graph|, s1.flow, a.machine.past);
      ForOfIterates(s, ctx, st, v, loose, labels, a.machine);
    } else {
      SettledAbrupt(v, ctx, loose, out, a);
    }
  }

  lemma {:induction false} ForOfIterates(s: Stmt, ctx: Context, st: State, v: View, loose: bool, labels: set<string>,
                                         m: Machine)
    requires s.ForOf? && Around(v, ctx, loose, st, BindLive(s, ctx, st))
    requires labels == WrappingNames(ctx) && (v.w.precise ==> Simple(s, v.exceptionTarget.Some?, labels))
    requires Good(v.w, |st.graph|, v.fixed, m.past) && Covered(v, m.past)
    ensures Settled(v, ctx, loose, BindLive(s, ctx, st), ExecForOf(s, labels, m))
    decreases |m.future|, s, 1
  {
    hide Good, Into, Extends, Covered, Valid, Fits, Explains, BindExpr, BindStmt, AddAntecedent, FinishFlowLabel,
         LoopContext, Exec, Mutate, ComesBack;
    var pre, post := |st.graph|, |st.graph| + 1;
    var out := BindLive(s, ctx, st);
    var s0, s1, t1, s2, s3, done := ForOfStages(s, ctx, st);
    assert IsJoin(s0.graph, pre) && IsJoin(s0.graph, post);
    ResumeEarlier(done, post);
    LoopLabelsKept(s0, s2, s3, done, pre, post, post);
    if m.future != [] && m.future[0].No? {
      JoinKept(s0.graph, s1.graph, post);
      ForOfPost(v, ctx, loose, st, s1.(flow := pre), t1, done, out, post, m.past);
      LeaveAtPost(v, ctx, loose, st, t1, done, post, m.past);
    } else if m.future != [] && m.future[0].Yes? {
      var m' := Emit(Tick(m), Assigned(s.target));
      EarlierTrans(s2, done, out);
      ReadyPart(v, ctx, loose, st, out, t1, s2, m.past);
      MutateSound(v, t1, m.past, s.target);
      BodySound(s.body, ctx, loose, labels, st, out, v, m', s2, s3, done, pre, post);
      var r := Exec(s.body, {}, m');
      if GoesOn(r.outcome, labels) {
        LoopBack(v, ctx, loose, st, out, pre, s3, done, r);
        ForOfIterates(s, ctx, st, v, loose, labels, r.machine);
      }
    }
  }

  lemma ForOfPost(v: View, ctx: Context, loose: bool, st: State, t0: State, t1: State, done: State, out: State,
                  post: FlowId, past: seq<Event>)
    requires Around(v, ctx, loose, st, out) && out.graph == done.graph && Earlier(t1, done) && t1 == Join(t0, post)
    requires Valid(t0) && Good(v.w, t0.flow, v.fixed, past) && IsJoin(t0.graph, post)
    ensures Into(v.w, t1.graph, post, v.fixed, past)
  {
    hide Good, Into, Extends, Covered, Fits, AddAntecedent;
    JoinEarlier(t0, post);
    ExtendsTrans(t0.graph, t1.graph, done.graph);
    ExtendsTrans(t0.graph, done.graph, v.settled);
    ExtendsTrans(t0.graph, v.settled, v.w.graph);
    IntoAdded(v.w, t0.graph, post, t0.flow, v.fixed, past);
  }

  // ----- parts that join at the end of a statement -----

  lemma SettledInner(v: View, ctx: Context, loose: bool, out: State, r: Run)
    requires Settled(v, Inner(ctx), loose, out, r)
    ensures Settled(v, ctx, loose, out, r)
  {
    hide Good, Explains, Into, Covered;
    assert forall d :: BreakTarget(Inner(ctx), d) == BreakTarget(ctx, d) && ContinueTarget(Inner(ctx), d) == ContinueTarget(ctx, d);
  }

  /** A part that joins at the label after its statement. */
  lemma JoinPost(v: View, ctx: Context, loose: bool, st: State, part: State, done: State, post: FlowId, r: Run)
    requires Around(v, ctx, loose, st, Resume(done, post)) && Settled(v, ctx, loose, part, r)
    requires Valid(part) && IsJoin(part.graph, post) && Earlier(Join(part, post), done)
    ensures Settled(v, ctx, loose, Resume(done, post), r)
  {
    hide Good, Explains, Into, Extends, Covered, Valid, Fits, AddAntecedent, FinishFlowLabel, BreakTarget,
         ContinueTarget;
    JoinEarlier(part, post);
    ResumeEarlier(done, post);
    EarlierTrans(part, Join(part, post), done);
    EarlierTrans(part, done, Resume(done, post));
    if r.outcome.Completed? {
      ExtendsTrans(done.graph, v.settled, v.w.graph);
      ExtendsTrans(part.graph, done.graph, v.w.graph);
      FlowInRange(part);
      IntoAdded(v.w, part.graph, post, part.flow, v.fixed, r.machine.past);
      JoinKept(part.graph, done.graph, post);
      LeaveAtPost(v, ctx, loose, st, Join(part, post), done, post, r.machine.past);
    } else {
      SettledLater(v, ctx, loose, part, Resume(done, post), r);
    }
  }

  // ----- if -----

  ghost predicate IfStaged(s: Stmt, ctx: Context, st: State, s0: State, s1: State, t: State, s3: State, e: State,
                           done: State) {
    && s.If? && Valid(st)
    && s0 == NewLabels(st, BRANCHES)
    && s1 == BindCondition(s.cond, |st.graph|, |st.graph| + 1, ctx.exceptionTarget, s0)
    && t == BindStmt(s.thenStmt, Inner(ctx), Resume(s1, |st.graph|))
    && s3 == Resume(Join(t, |st.graph| + 2), |st.graph| + 1)
    && (e == if s.elseStmt.Some? then BindStmt(s.elseStmt.value, Inner(ctx), s3) else s3)
    && done == Join(e, |st.graph| + 2) && BindLive(s, ctx, st) == Resume(done, |st.graph| + 2)
    && Earlier(st, s0) && Earlier(s0, s1) && Earlier(st, Resume(s1, |st.graph|)) && Earlier(Resume(s1, |st.graph|), t)
    && Earlier(Join(t, |st.graph| + 2), done) && Earlier(st, s3) && Earlier(s3, e) && Earlier(e, done)
    && Earlier(s1, s3)
    && Earlier(s0, t) && Earlier(s0, e) && Earlier(t, done) && Earlier(s1, done) && Earlier(s3, done)
  }

  lemma IfStages(s: Stmt, ctx: Context, st: State)
    returns (s0: State, s1: State, t: State, s3: State, e: State, done: State)
    requires s.If? && Valid(st)
    ensures IfStaged(s, ctx, st, s0, s1, t, s3, e, done)
  {
    hide Extends, Valid, BindCondition, BindStmt, AddAntecedent, FinishFlowLabel;
    var thenLabel, elseLabel, post := |st.graph|, |st.graph| + 1, |st.graph| + 2;
    s0 := NewLabels(st, BRANCHES);
    s1 := BindCondition(s.cond, thenLabel, elseLabel, ctx.exceptionTarget, s0);
    t := BindStmt(s.thenStmt, Inner(ctx), Resume(s1, thenLabel));
    var s2 := Join(t, post);
    s3 := Resume(s2, elseLabel);
    e := if s.elseStmt.Some? then BindStmt(s.elseStmt.value, Inner(ctx), s3) else s3;
    done := Join(e, post);
    assert s0.flow < |s0.graph| by { FlowInRange(st); }
    AppendEarlier(st, s0, BRANCHES);
    ConditionEarlier(s.cond, thenLabel, elseLabel, ctx.exceptionTarget, s0);
    ResumeEarlier(s1, thenLabel);
    StmtEarlier(s.thenStmt, Inner(ctx), Resume(s1, thenLabel));
    JoinEarlier(t, post);
    ResumeEarlier(s2, elseLabel);
    if s.elseStmt.Some? {
      StmtEarlier(s.elseStmt.value, Inner(ctx), s3);
    } else {
      EarlierRefl(s3);
    }
    JoinEarlier(e, post);
    EarlierTrans(st, s0, s1);
    EarlierTrans(st, s1, Resume(s1, thenLabel));
    EarlierTrans(s1, Resume(s1, thenLabel), t);
    EarlierTrans(s0, s1, t);
    EarlierTrans(t, s2, s3);
    EarlierTrans(s1, t, s3);
    EarlierTrans(st, s1, s3);
    EarlierTrans(s3, e, done);
    EarlierTrans(s2, s3, done);
    EarlierTrans(t, s2, done);
    EarlierTrans(s1, s3, done);
    EarlierTrans(s1, s3, e);
    EarlierTrans(s0, s1, e);
  }

  lemma {:induction false} IfSound(s: Stmt, ctx: Context, st: State, v: View, loose: bool, labels: set<string>,
                                   m: Machine)
    requires s.If? && Enters(v, ctx, loose, st, BindLive(s, ctx, st), m.past)
    requires v.w.precise ==> Simple(s, v.exceptionTarget.Some?, labels)
    ensures Settled(v, ctx, loose, BindLive(s, ctx, st), ExecLive(s, labels, m))
    decreases |m.future|, s, 1
  {
    hide Good, Into, Extends, Covered, Valid, Fits, Explains, BindCondition, BindStmt, AddAntecedent, FinishFlowLabel,
         Exec, Eval, Settled;
    var thenLabel, elseLabel, post := |st.graph|, |st.graph| + 1, |st.graph| + 2;
    var out := BindLive(s, ctx, st);
    var s0, s1, t, s3, e, done := IfStages(s, ctx, st);
    assert IsJoin(s0.graph, thenLabel) && IsJoin(s0.graph, elseLabel) && IsJoin(s0.graph, post);
    ResumeEarlier(done, post);
    EarlierTrans(s1, done, out);
    EarlierTrans(t, done, out);
    EarlierTrans(e, done, out);
    EarlierTrans(s3, done, out);
    assert s0.flow == st.flow;
    ReadyPart(v, ctx, loose, st, out, s0, s1, m.past);
    ConditionSound(s.cond, thenLabel, elseLabel, s0, v, m);
    JoinKept(s0.graph, s1.graph, thenLabel);
    JoinKept(s0.graph, t.graph, post);
    JoinKept(s0.graph, t.graph, elseLabel);
    JoinKept(s0.graph, e.graph, post);
    var c := Eval(s.cond, m);
    if !c.outcome.Value? {
      SettledAbrupt(v, ctx, loose, out, c);
    } else if c.outcome.truthy {
      IntoFinished(v.w, s1.graph, thenLabel, v.fixed, c.machine.past);
      ReadyPart(v, ctx, loose, st, out, Resume(s1, thenLabel), t, c.machine.past);
      FitsInner(v, ctx, loose, Resume(s1, thenLabel).graph);
      StmtSound(s.thenStmt, Inner(ctx), Resume(s1, thenLabel), v, loose, {}, c.machine);
      SettledInner(v, ctx, loose, t, Exec(s.thenStmt, {}, c.machine));
      JoinPost(v, ctx, loose, st, t, done, post, Exec(s.thenStmt, {}, c.machine));
    } else {
      ElseReady(v, ctx, loose, st, out, s1, t, s3, elseLabel, post, c.machine.past);
      EarlierRefl(done);
      if s.elseStmt.Some? {
        ReadyPart(v, ctx, loose, st, out, s3, e, c.machine.past);
        FitsInner(v, ctx, loose, s3.graph);
        StmtSound(s.elseStmt.value, Inner(ctx), s3, v, loose, {}, c.machine);
        SettledInner(v, ctx, loose, e, Exec(s.elseStmt.value, {}, c.machine));
        JoinPost(v, ctx, loose, st, e, done, post, Exec(s.elseStmt.value, {}, c.machine));
      } else {
        assert Settled(v, ctx, loose, e, Run(Completed, c.machine)) by { SettledCompleted(v, ctx, loose, e, c.machine); }
        JoinPost(v, ctx, loose, st, e, done, post, Run(Completed, c.machine));
      }
    }
  }

  lemma SettledCompleted(v: View, ctx: Context, loose: bool, out: State, m: Machine)
    requires Good(v.w, out.flow, v.fixed, m.past) && Covered(v, m.past)
    ensures Settled(v, ctx, loose, out, Run(Completed, m))
  {
  }

  /** A false condition has arrived at the label of the else part. */
  lemma ElseReady(v: View, ctx: Context, loose: bool, st: State, out: State, s1: State, t: State, s3: State,
                  elseLabel: FlowId, post: FlowId, past: seq<Event>)
    requires Around(v, ctx, loose, st, out) && Earlier(s1, s3) && Earlier(s3, out)
    requires s3 == Resume(Join(t, post), elseLabel) && IsJoin(t.graph, elseLabel) && Valid(t)
    requires Into(v.w, s1.graph, elseLabel, v.fixed, past)
    ensures Good(v.w, s3.flow, v.fixed, past)
  {
    hide Good, Into, Extends, Covered, Fits, AddAntecedent, FinishFlowLabel;
    JoinEarlier(t, post);
    JoinKept(t.graph, s3.graph, elseLabel);
    IntoExtends(v.w, s1.graph, s3.graph, elseLabel, v.fixed, past);
    ExtendsTrans(s3.graph, out.graph, v.settled);
    ExtendsTrans(s3.graph, v.settled, v.w.graph);
    IntoFinished(v.w, s3.graph, elseLabel, v.fixed, past);
  }

  // ----- labels -----

  lemma {:induction false} LabeledSound(s: Stmt, ctx: Context, st: State, v: View, loose: bool, labels: set<string>,
                                        m: Machine)
    requires s.Labeled? && Enters(v, ctx, loose, st, BindLive(s, ctx, st), m.past)
    requires labels == WrappingNames(ctx) && (v.w.precise ==> Simple(s, v.exceptionTarget.Some?, labels))
    ensures Settled(v, ctx, loose, BindLive(s, ctx, st), ExecLive(s, labels, m))
    decreases |m.future|, s, 1
  {
    hide Good, Into, Extends, Covered, Valid, Fits, Explains, BindStmt, AddAntecedent, FinishFlowLabel, Exec,
         LabelContext;
    var post, out := |st.graph|, BindLive(s, ctx, st);
    var inner := LabelContext(ctx, s.name, post);
    var s0 := NewNode(st, BranchLabel([]));
    var s1 := BindStmt(s.body, inner, s0);
    var done := Join(s1, post);
    assert s0.flow < |s0.graph| by { FlowInRange(st); }
    AppendEarlier(st, s0, [BranchLabel([])]);
    StmtEarlier(s.body, inner, s0);
    JoinEarlier(s1, post);
    ResumeEarlier(done, post);
    EarlierTrans(s1, done, out);
    ReadyPart(v, ctx, loose, st, out, s0, s1, m.past);
    assert IsJoin(s0.graph, post);
    JoinKept(s0.graph, s1.graph, post);
    FitsLabel(v, ctx, loose, s0.graph, s.name, post);
    var r := Exec(s.body, labels + {s.name}, m);
    StmtSound(s.body, inner, s0, v, loose, labels + {s.name}, m);
    EarlierRefl(done);
    LeaveLabelSound(v, ctx, loose, st, s.name, post, s1, done, r);
  }

  lemma FitsLabel(v: View, ctx: Context, loose: bool, g: Graph, name: string, post: FlowId)
    requires Fits(v, ctx, loose, g) && IsJoin(g, post)
    ensures Fits(v, LabelContext(ctx, name, post), loose, g)
    ensures WrappingNames(LabelContext(ctx, name, post)) == WrappingNames(ctx) + {name}
  {
    var inner := LabelContext(ctx, name, post);
    forall x | x in WrappingNames(inner)
      ensures x in WrappingNames(ctx) + {name}
    {
      var i :| 0 <= i < |inner.labels| && i < inner.wrapping && inner.labels[i].name == x;
      if i > 0 {
        assert ctx.labels[i - 1].name == x;
      }
    }
    forall x | x in WrappingNames(ctx) + {name}
      ensures x in WrappingNames(inner)
    {
      if x != name {
        var i :| 0 <= i < |ctx.labels| && i < ctx.wrapping && ctx.labels[i].name == x;
        assert inner.labels[i + 1].name == x;
      } else {
        assert inner.labels[0].name == x;
      }
    }
  }

  lemma LabelTargetsSeen(ctx: Context, name: string, post: FlowId, d: Option<string>)
    ensures var inner := LabelContext(ctx, name, post);
            && (d == Some(name) ==> BreakTarget(inner, d) == Some(post))
            && (d != Some(name) ==> BreakTarget(inner, d) == BreakTarget(ctx, d) && ContinueTarget(inner, d) == ContinueTarget(ctx, d))
            && inner.returnTarget == ctx.returnTarget
  {
    var inner := LabelContext(ctx, name, post);
    assert inner.labels[1..] == ctx.labels;
  }

  /** Past a labelled statement. */
  lemma LeaveLabelSound(v: View, ctx: Context, loose: bool, st: State, name: string, post: FlowId, body: State,
                        done: State, r: Run)
    requires Settled(v, LabelContext(ctx, name, post), loose, body, r)
    requires Around(v, ctx, loose, st, Resume(done, post)) && done == Join(body, post) && Valid(body)
    requires IsJoin(body.graph, post)
    ensures Settled(v, ctx, loose, Resume(done, post),
                    if r.outcome == Broke(Some(name)) then Run(Completed, r.machine)
                    else if r.outcome == Continued(Some(name)) then Run(Stopped, r.machine)
                    else r)
  {
    hide Good, Explains, Into, Extends, Covered, Fits, LabelContext, AddAntecedent, FinishFlowLabel, BreakTarget,
         ContinueTarget;
    JoinEarlier(body, post);
    LabelTargetsSeen(ctx, name, post, None);
    if r.outcome.Broke? || r.outcome.Continued? {
      LabelTargetsSeen(ctx, name, post, r.outcome.destination);
    }
    if r.outcome == Broke(Some(name)) {
      JoinKept(body.graph, done.graph, post);
      LeaveAtPost(v, ctx, loose, st, body, done, post, r.machine.past);
    } else if r.outcome != Continued(Some(name)) {
      assert Settled(v, ctx, loose, body, r);
      EarlierRefl(done);
      JoinPost(v, ctx, loose, st, body, done, post, r);
    }
  }

  // ----- lists of statements -----

  lemma {:induction false} FunctionsKeepFlow(ss: seq<Stmt>, st: State)
    ensures BindFunctions(ss, st).flow == st.flow
    decreases |ss|
  {
    hide BindContainer;
    if ss != [] {
      if ss[0].Function? {
        ContainerKeepsFlow(ss[0], st);
        FunctionsKeepFlow(ss[1..], BindContainer(ss[0], st));
      } else {
        FunctionsKeepFlow(ss[1..], st);
      }
    }
  }

  lemma ContainerKeepsFlow(s: Stmt, st: State)
    requires s.Function?
    ensures BindContainer(s, st).flow == st.flow && BindContainer(s, st).explicitReturn == st.explicitReturn
  {
  }

  lemma FunctionsEarlier(ss: seq<Stmt>, st: State)
    requires Valid(st)
    ensures Earlier(st, BindFunctions(ss, st))
  {
    FunctionsGrow(ss, st);
    GrowsEarlier({}, st, BindFunctions(ss, st));
  }

  lemma OthersEarlier(ss: seq<Stmt>, ctx: Context, st: State)
    requires Valid(st)
    ensures Earlier(st, BindOthers(ss, ctx, st))
  {
    OthersGrow(ss, ctx, st);
    GrowsEarlier(Targets(ctx), st, BindOthers(ss, ctx, st));
  }

  lemma EachEarlier(ss: seq<Stmt>, ctx: Context, st: State)
    requires Valid(st)
    ensures Earlier(st, BindEach(ss, ctx, st))
  {
    EachGrows(ss, ctx, st);
    GrowsEarlier(Targets(ctx), st, BindEach(ss, ctx, st));
  }

  lemma {:induction false} BlockSound(ss: seq<Stmt>, ctx: Context, st: State, v: View, loose: bool, m: Machine)
    requires Enters(v, ctx, loose, st, BindBlock(ss, ctx, st), m.past) && ctx.wrapping == 0
    requires v.w.precise ==> SimpleSeq(ss, v.exceptionTarget.Some?)
    ensures Settled(v, ctx, loose, BindBlock(ss, ctx, st), ExecSeq(ss, m))
    decreases |m.future|, ss, 1
  {
    hide Good, Into, Extends, Covered, Valid, Fits, Explains, BindFunctions, BindOthers, BindDeads, ExecSeq;
    var out := BindBlock(ss, ctx, st);
    var s0 := BindFunctions(ss, st);
    BlockEarlier(ss, ctx, st);
    ReadyAlive(v, st, out, m.past);
    FunctionsEarlier(ss, st);
    FunctionsKeepFlow(ss, st);
    OthersEarlier(ss, ctx, s0);
    EarlierRefl(out);
    ReadyPart(v, ctx, loose, st, out, s0, out, m.past);
    OthersSound(ss, ctx, s0, v, loose, m);
  }

  lemma {:induction false} OthersSound(ss: seq<Stmt>, ctx: Context, st: State, v: View, loose: bool, m: Machine)
    requires Enters(v, ctx, loose, st, BindOthers(ss, ctx, st), m.past) && ctx.wrapping == 0
    requires v.w.precise ==> SimpleSeq(ss, v.exceptionTarget.Some?)
    ensures Settled(v, ctx, loose, BindOthers(ss, ctx, st), ExecSeq(ss, m))
    decreases |m.future|, ss, 0
  {
    hide Good, Into, Extends, Covered, Valid, Fits, Explains, BindStmt, Exec, ExceptionLabel;
    var out := BindOthers(ss, ctx, st);
    if ss == [] {
      SettledCompleted(v, ctx, loose, out, m);
    } else {
      var s1 := if ss[0].Function? then st else BindStmt(ss[0], ctx, st);
      if ss[0].Function? {
        EarlierRefl(st);
      } else {
        StmtEarlier(ss[0], ctx, st);
      }
      OthersEarlier(ss[1..], ctx, s1);
      var r := Exec(ss[0], {}, m);
      if ss[0].Function? {
        FunctionRuns(ss[0], ctx, st, v, loose, {}, m);
      } else {
        EarlierRefl(st);
        ReadyPart(v, ctx, loose, st, out, st, s1, m.past);
        StmtSound(ss[0], ctx, st, v, loose, {}, m);
      }
      if r.outcome.Completed? {
        EarlierRefl(out);
        SettledGood(v, ctx, loose, s1, r);
        ReadyPart(v, ctx, loose, st, out, s1, out, r.machine.past);
        OthersSound(ss[1..], ctx, s1, v, loose, r.machine);
      } else {
        SettledLater(v, ctx, loose, s1, out, r);
      }
    }
  }

  lemma SettledGood(v: View, ctx: Context, loose: bool, out: State, r: Run)
    requires Settled(v, ctx, loose, out, r) && r.outcome.Completed?
    ensures Good(v.w, out.flow, v.fixed, r.machine.past) && Covered(v, r.machine.past)
  {
  }

  /** Reaching the declaration of a function does nothing. */
  lemma FunctionRuns(s: Stmt, ctx: Context, st: State, v: View, loose: bool, labels: set<string>, m: Machine)
    requires s.Function? && Good(v.w, st.flow, v.fixed, m.past) && Covered(v, m.past)
    ensures Settled(v, ctx, loose, st, Exec(s, labels, m))
  {
    hide Good, Into, Covered;
  }

  lemma {:induction false} EachSound(ss: seq<Stmt>, ctx: Context, st: State, v: View, loose: bool, m: Machine)
    requires Enters(v, ctx, loose, st, BindEach(ss, ctx, st), m.past) && ctx.wrapping == 0
    requires v.w.precise ==> SimpleSeq(ss, v.exceptionTarget.Some?)
    ensures Settled(v, ctx, loose, BindEach(ss, ctx, st), ExecSeq(ss, m))
    decreases |m.future|, ss, 0
  {
    hide Good, Into, Extends, Covered, Valid, Fits, Explains, BindStmt, Exec, ExceptionLabel;
    var out := BindEach(ss, ctx, st);
    if ss == [] {
      SettledCompleted(v, ctx, loose, out, m);
    } else {
      var s1 := BindStmt(ss[0], ctx, st);
      StmtEarlier(ss[0], ctx, st);
      EachEarlier(ss[1..], ctx, s1);
      var r := Exec(ss[0], {}, m);
      EarlierRefl(st);
      ReadyPart(v, ctx, loose, st, out, st, s1, m.past);
      StmtSound(ss[0], ctx, st, v, loose, {}, m);
      if r.outcome.Completed? {
        EarlierRefl(out);
        SettledGood(v, ctx, loose, s1, r);
        ReadyPart(v, ctx, loose, st, out, s1, out, r.machine.past);
        EachSound(ss[1..], ctx, s1, v, loose, r.machine);
      } else {
        SettledLater(v, ctx, loose, s1, out, r);
      }
    }
  }

  // ----- try: the parts before the finally block -----

  /** What holds of a run of the try block and catch clause, once both are bound. */
  ghost predicate GuardedOk(v: View, s: Stmt, ctx: Context, loose: bool, normalExit: FlowId, returned: FlowId,
                            g: Guarded, r: Run)
    requires s.Try?
  {
    var past, graph := r.machine.past, g.state.graph;
    match r.outcome
    case Completed => Into(v.w, graph, normalExit, v.fixed, past)
    case Raised => Into(v.w, graph, g.exceptions, v.fixed, past)
    case Returned =>
      if s.finalizer.SomeBlock? then Into(v.w, graph, returned, v.fixed, past)
      else ReturnedInto(v, graph, ctx.returnTarget, loose, past)
    case Broke(d) => Jumped(v, graph, BreakTarget(ctx, d), past)
    case Continued(d) => Jumped(v, graph, ContinueTarget(ctx, d), past)
    case Reached(id) => Marked(v.w, g.state, id, past)
    case Stopped => true
  }

  predicate LooseInside(s: Stmt, loose: bool)
    requires s.Try?
  {
    s.finalizer.NoBlock? && loose
  }

  /** The view of a part of a try statement: its exceptions go to the label `x`. */
  function GuardedView(v: View, joined: State, x: FlowId): View {
    View(v.w, joined.graph, Some(x), v.fixed)
  }

  lemma PartGuarded(v: View, s: Stmt, ctx: Context, loose: bool, normalExit: FlowId, returned: FlowId, x: FlowId,
                    part: State, joined: State, r: Run)
    requires s.Try?
    requires Settled(GuardedView(v, joined, x), TryContext(s, ctx, returned, x), LooseInside(s, loose), part, r)
    requires Valid(part) && joined == Join(part, normalExit) && IsJoin(part.graph, normalExit)
    requires Extends(joined.graph, v.w.graph)
    ensures GuardedOk(v, s, ctx, loose, normalExit, returned, Guarded(joined, x), r)
  {
    hide Good, Explains, Into, Extends, AddAntecedent, BreakTarget, ContinueTarget;
    var inner, iv := TryContext(s, ctx, returned, x), GuardedView(v, joined, x);
    TryJumps(s, ctx, returned, x);
    JoinEarlier(part, normalExit);
    if r.outcome.Completed? {
      ExtendsTrans(part.graph, joined.graph, v.w.graph);
      FlowInRange(part);
      IntoAdded(v.w, part.graph, normalExit, part.flow, v.fixed, r.machine.past);
    } else {
      SettledLater(iv, inner, LooseInside(s, loose), part, joined, r);
      if r.outcome.Returned? {
        ReturnGuarded(v, s, ctx, loose, returned, x, joined, r.machine.past);
      }
    }
  }

  lemma ReturnGuarded(v: View, s: Stmt, ctx: Context, loose: bool, returned: FlowId, x: FlowId, joined: State,
                      past: seq<Event>)
    requires s.Try?
    requires ReturnedInto(GuardedView(v, joined, x), joined.graph, TryContext(s, ctx, returned, x).returnTarget, LooseInside(s, loose), past)
    ensures if s.finalizer.SomeBlock? then Into(v.w, joined.graph, returned, v.fixed, past)
            else ReturnedInto(v, joined.graph, ctx.returnTarget, loose, past)
  {
    hide Good, Explains;
  }

  lemma TryJumps(s: Stmt, ctx: Context, returned: FlowId, x: FlowId)
    requires s.Try?
    ensures var inner := TryContext(s, ctx, returned, x);
            forall d :: BreakTarget(inner, d) == BreakTarget(ctx, d) && ContinueTarget(inner, d) == ContinueTarget(ctx, d)
  {
  }

  lemma FitsTry(v: View, s: Stmt, ctx: Context, loose: bool, g: Graph, joined: State, returned: FlowId, x: FlowId)
    requires s.Try? && Fits(v, ctx, loose, g) && IsJoin(g, returned)
    ensures Fits(GuardedView(v, joined, x), TryContext(s, ctx, returned, x), LooseInside(s, loose), g)
  {
  }

  lemma GuardedLater(v: View, s: Stmt, ctx: Context, loose: bool, normalExit: FlowId, returned: FlowId, a: Guarded,
                     b: Guarded, r: Run)
    requires s.Try? && GuardedOk(v, s, ctx, loose, normalExit, returned, a, r) && !r.outcome.Raised?
    requires Earlier(a.state, b.state)
    ensures GuardedOk(v, s, ctx, loose, normalExit, returned, b, r)
  {
    hide Good, Explains, Into, BreakTarget, ContinueTarget;
    var past, g, h := r.machine.past, a.state.graph, b.state.graph;
    match r.outcome
    case Completed => IntoExtends(v.w, g, h, normalExit, v.fixed, past);
    case Broke(d) =>
      if BreakTarget(ctx, d).Some? {
        IntoExtends(v.w, g, h, BreakTarget(ctx, d).value, v.fixed, past);
      }
    case Continued(d) =>
      if ContinueTarget(ctx, d).Some? {
        IntoExtends(v.w, g, h, ContinueTarget(ctx, d).value, v.fixed, past);
      }
    case Returned =>
      if s.finalizer.SomeBlock? {
        IntoExtends(v.w, g, h, returned, v.fixed, past);
      } else if ctx.returnTarget.Some? {
        AntecedentsKept(g, h, ctx.returnTarget.value);
      }
    case _ =>
  }

  ghost predicate TryBlockStaged(s: Stmt, ctx: Context, st: State, g0: State, e0: State, t: State, s1: State) {
    && s.Try? && Valid(st)
    && g0 == NewLabels(st, BRANCHES) && e0 == Join(g0, |st.graph| + 2)
    && t == BindBlock(s.block, TryContext(s, ctx, |st.graph| + 1, |st.graph| + 2), e0)
    && s1 == Join(t, |st.graph|) && s1 == BindTryBlock(s, ctx, st)
    && Earlier(st, g0) && Earlier(g0, e0) && Earlier(e0, t) && Earlier(t, s1) && Earlier(e0, s1) && Earlier(g0, s1)
    && Earlier(st, s1)
    && Earlier(st, e0)
  }

  lemma TryBlockStages(s: Stmt, ctx: Context, st: State) returns (g0: State, e0: State, t: State, s1: State)
    requires s.Try? && Valid(st)
    ensures TryBlockStaged(s, ctx, st, g0, e0, t, s1)
  {
    hide Extends, Valid, BindBlock, AddAntecedent;
    var normalExit, returned, exceptions := |st.graph|, |st.graph| + 1, |st.graph| + 2;
    g0 := NewLabels(st, BRANCHES);
    e0 := Join(g0, exceptions);
    t := BindBlock(s.block, TryContext(s, ctx, returned, exceptions), e0);
    s1 := Join(t, normalExit);
    assert g0.flow < |g0.graph| by { FlowInRange(st); }
    AppendEarlier(st, g0, BRANCHES);
    JoinEarlier(g0, exceptions);
    BlockEarlier(s.block, TryContext(s, ctx, returned, exceptions), e0);
    JoinEarlier(t, normalExit);
    EarlierTrans(st, g0, e0);
    EarlierTrans(e0, t, s1);
    EarlierTrans(g0, e0, s1);
    EarlierTrans(st, g0, s1);
  }

  /** The try block: from its start, every exception is covered by its label. */
  lemma {:induction false} TryBlockSound(s: Stmt, ctx: Context, st: State, v: View, loose: bool, m: Machine)
    requires s.Try? && ctx.wrapping == 0 && Enters(v, ctx, loose, st, BindTryBlock(s, ctx, st), m.past)
    requires v.w.precise ==> SimpleSeq(s.block, true)
    ensures GuardedOk(v, s, ctx, loose, |st.graph|, |st.graph| + 1, Guarded(BindTryBlock(s, ctx, st), |st.graph| + 2), ExecSeq(s.block, m))
    decreases |m.future|, s, 0, 0
  {
    hide Good, Into, Extends, Valid, Fits, Explains, BindBlock, AddAntecedent, ExecSeq, GuardedOk, Settled, TryContext;
    var normalExit, returned, exceptions := |st.graph|, |st.graph| + 1, |st.graph| + 2;
    var g0, e0, t, s1 := TryBlockStages(s, ctx, st);
    ExtendsTrans(s1.graph, v.settled, v.w.graph);
    assert IsJoin(g0.graph, normalExit) && IsJoin(g0.graph, returned) && IsJoin(g0.graph, exceptions);
    JoinKept(g0.graph, e0.graph, exceptions);
    JoinKept(g0.graph, e0.graph, returned);
    JoinKept(g0.graph, e0.graph, normalExit);
    JoinKept(e0.graph, t.graph, normalExit);
    ExtendsTrans(g0.graph, s1.graph, v.w.graph);
    FlowInRange(st);
    ExtendsLength(st.graph, g0.graph);
    IntoAdded(v.w, g0.graph, exceptions, st.flow, v.fixed, m.past);
    IntoExtends(v.w, e0.graph, s1.graph, exceptions, v.fixed, m.past);
    var iv := GuardedView(v, s1, exceptions);
    FitsLater(v, ctx, loose, st.graph, e0.graph);
    FitsTry(v, s, ctx, loose, e0.graph, s1, returned, exceptions);
    assert TryContext(s, ctx, returned, exceptions).wrapping == 0 && TryContext(s, ctx, returned, exceptions).exceptionTarget == Some(exceptions) by {
      TryWrapping(s, ctx, returned, exceptions);
    }
    BlockSound(s.block, TryContext(s, ctx, returned, exceptions), e0, iv, LooseInside(s, loose), m);
    PartGuarded(v, s, ctx, loose, normalExit, returned, exceptions, t, s1, ExecSeq(s.block, m));
  }

  lemma TryWrapping(s: Stmt, ctx: Context, returned: FlowId, x: FlowId)
    requires s.Try?
    ensures TryContext(s, ctx, returned, x).wrapping == ctx.wrapping
    ensures TryContext(s, ctx, returned, x).exceptionTarget == Some(x)
  {
  }

  ghost predicate HandlerStaged(s: Stmt, ctx: Context, st: State, s1: State, c0: State, c1: State, e: State, t: State,
                                s2: State) {
    && s.Try? && s.handler.SomeBlock? && Valid(s1) && s1 == BindTryBlock(s, ctx, st)
    && c0 == Resume(s1, |st.graph| + 2) && c1 == NewNode(c0, BranchLabel([])) && e == Join(c1, |s1.graph|)
    && t == BindBlock(s.handler.statements, TryContext(s, ctx, |st.graph| + 1, |s1.graph|), e)
    && s2 == Join(t, |st.graph|) && BindGuarded(s, ctx, st) == Guarded(s2, |s1.graph|)
    && Earlier(s1, c0) && Earlier(c0, c1) && Earlier(c1, e) && Earlier(s1, e) && Earlier(e, t) && Earlier(t, s2)
    && Earlier(e, s2) && Earlier(c1, s2) && Earlier(s1, s2) && Earlier(s1, t)
  }

  lemma HandlerStages(s: Stmt, ctx: Context, st: State, s1: State)
    returns (c0: State, c1: State, e: State, t: State, s2: State)
    requires s.Try? && s.handler.SomeBlock? && Valid(s1) && s1 == BindTryBlock(s, ctx, st)
    ensures HandlerStaged(s, ctx, st, s1, c0, c1, e, t, s2)
  {
    hide Extends, Valid, BindBlock, AddAntecedent, BindTryBlock, FinishFlowLabel;
    var normalExit, returned, exceptions := |st.graph|, |st.graph| + 1, |st.graph| + 2;
    c0 := Resume(s1, exceptions);
    var uncaught := |c0.graph|;
    c1 := NewNode(c0, BranchLabel([]));
    e := Join(c1, uncaught);
    var inner := TryContext(s, ctx, returned, uncaught);
    t := BindBlock(s.handler.statements, inner, e);
    s2 := Join(t, normalExit);
    ResumeEarlier(s1, exceptions);
    assert c1.flow < |c1.graph| by { FlowInRange(c0); }
    AppendEarlier(c0, c1, [BranchLabel([])]);
    JoinEarlier(c1, uncaught);
    BlockEarlier(s.handler.statements, inner, e);
    JoinEarlier(t, normalExit);
    EarlierTrans(s1, c0, c1);
    EarlierTrans(s1, c1, e);
    EarlierTrans(s1, e, t);
    EarlierTrans(e, t, s2);
    EarlierTrans(c1, e, s2);
    EarlierTrans(s1, e, s2);
  }

  /** The catch clause, entered by an exception of the try block. */
  lemma {:induction false} HandlerSound(s: Stmt, ctx: Context, st: State, v: View, loose: bool, m: Machine)
    requires s.Try? && s.handler.SomeBlock? && ctx.wrapping == 0
    requires Around(v, ctx, loose, st, BindGuarded(s, ctx, st).state)
    requires v.w.precise ==> SimpleSeq(s.handler.statements, true)
    requires Into(v.w, BindTryBlock(s, ctx, st).graph, |st.graph| + 2, v.fixed, m.past)
    ensures GuardedOk(v, s, ctx, loose, |st.graph|, |st.graph| + 1, BindGuarded(s, ctx, st), ExecSeq(s.handler.statements, m))
    decreases |m.future|, s, 0, 0
  {
    hide Good, Into, Extends, Valid, Fits, Explains, BindBlock, AddAntecedent, FinishFlowLabel, ExecSeq, GuardedOk,
         Settled, BindTryBlock, TryContext;
    var normalExit, returned, exceptions := |st.graph|, |st.graph| + 1, |st.graph| + 2;
    var g0, e0, t0, s1 := TryBlockStages(s, ctx, st);
    var c0, c1, e, t, s2 := HandlerStages(s, ctx, st, s1);
    var uncaught := |s1.graph|;
    EarlierTrans(st, s1, s2);
    ExtendsTrans(s2.graph, v.settled, v.w.graph);
    ExtendsTrans(s1.graph, s2.graph, v.w.graph);
    ExtendsTrans(c1.graph, s2.graph, v.w.graph);
    JoinKept(g0.graph, s1.graph, exceptions);
    JoinKept(g0.graph, s1.graph, returned);
    JoinKept(g0.graph, s1.graph, normalExit);
    IntoFinished(v.w, s1.graph, exceptions, v.fixed, m.past);
    assert IsJoin(c1.graph, uncaught);
    FlowInRange(c0);
    IntoAdded(v.w, c1.graph, uncaught, c1.flow, v.fixed, m.past);
    IntoExtends(v.w, e.graph, s2.graph, uncaught, v.fixed, m.past);
    JoinKept(c1.graph, e.graph, uncaught);
    JoinKept(s1.graph, e.graph, returned);
    JoinKept(s1.graph, t.graph, normalExit);
    var iv := GuardedView(v, s2, uncaught);
    ExtendsTrans(st.graph, s1.graph, e.graph);
    FitsLater(v, ctx, loose, st.graph, e.graph);
    FitsTry(v, s, ctx, loose, e.graph, s2, returned, uncaught);
    TryWrapping(s, ctx, returned, uncaught);
    BlockSound(s.handler.statements, TryContext(s, ctx, returned, uncaught), e, iv, LooseInside(s, loose), m);
    PartGuarded(v, s, ctx, loose, normalExit, returned, uncaught, t, s2, ExecSeq(s.handler.statements, m));
  }

  lemma {:induction false} GuardedSound(s: Stmt, ctx: Context, st: State, v: View, loose: bool, m: Machine)
    requires s.Try? && ctx.wrapping == 0 && Enters(v, ctx, loose, st, BindGuarded(s, ctx, st).state, m.past)
    requires v.w.precise ==> SimpleSeq(s.block, true) && (s.handler.SomeBlock? ==> SimpleSeq(s.handler.statements, true))
    ensures GuardedOk(v, s, ctx, loose, |st.graph|, |st.graph| + 1, BindGuarded(s, ctx, st), ExecGuarded(s, m))
    decreases |m.future|, s, 0, 1
  {
    hide Good, Into, Extends, Covered, Valid, Fits, Explains, BindBlock, AddAntecedent, FinishFlowLabel, ExecSeq,
         BindTryBlock;
    var g0, e0, t0, s1 := TryBlockStages(s, ctx, st);
    var g := BindGuarded(s, ctx, st);
    if s.handler.NoBlock? {
      TryBlockSound(s, ctx, st, v, loose, m);
    } else {
      var c0, c1, e, t, s2 := HandlerStages(s, ctx, st, s1);
      EarlierRefl(st);
      ReadyPart(v, ctx, loose, st, s2, st, s1, m.past);
      TryBlockSound(s, ctx, st, v, loose, m);
      var r := ExecSeq(s.block, m);
      if r.outcome.Raised? {
        HandlerSound(s, ctx, st, v, loose, r.machine);
      } else {
        GuardedLater(v, s, ctx, loose, |st.graph|, |st.graph| + 1, Guarded(s1, |st.graph| + 2), g, r);
      }
    }
  }

  // ----- try: the finally block -----

  /** The flows into the finally block that belong to the way the guarded parts ended. */
  function PendingList(outcome: Outcome, normalList: seq<FlowId>, exceptionList: seq<FlowId>, returnList: seq<FlowId>): seq<FlowId> {
    match outcome
    case Completed => normalList
    case Raised => exceptionList
    case Returned => returnList
    case _ => []
  }

  function FinallyView(v: View, finallyLabel: FlowId, list: seq<FlowId>): View {
    v.(fixed := v.fixed[finallyLabel := list])
  }

  ghost predicate TryStaged(s: Stmt, ctx: Context, st: State, g: Guarded, s2: State, s3: State) {
    && s.Try? && s.finalizer.SomeBlock? && Valid(st)
    && g == BindGuarded(s, ctx, st)
    && s2 == NewNode(SealParts(g.state, |st.graph|, g.exceptions, |st.graph| + 1), FinallyLabel(Antecedents(g.state.graph, |st.graph|)
                    + (Antecedents(g.state.graph, g.exceptions) + Antecedents(g.state.graph, |st.graph| + 1)))).(flow := |g.state.graph|)
    && s3 == BindBlock(s.finalizer.statements, ctx, s2)
    && BindTry(s, ctx, st) == LeaveFinally(ctx, s3, |g.state.graph|, Antecedents(g.state.graph, |st.graph|),
                                                Antecedents(g.state.graph, g.exceptions), Antecedents(g.state.graph, |st.graph| + 1))
    && Earlier(st, g.state) && Earlier(g.state, s2) && Earlier(s2, s3) && Earlier(s3, BindTry(s, ctx, st))
    && Earlier(st, s2) && Earlier(s2, BindTry(s, ctx, st)) && Earlier(g.state, BindTry(s, ctx, st))
    && Earlier(st, s3)
  }

  lemma TryStages(s: Stmt, ctx: Context, st: State) returns (g: Guarded, s2: State, s3: State)
    requires s.Try? && s.finalizer.SomeBlock? && Valid(st)
    ensures TryStaged(s, ctx, st, g, s2, s3)
  {
    hide Extends, Valid, BindBlock, BindGuarded, LeaveFinally, Grows;
    var normalExit, returned := |st.graph|, |st.graph| + 1;
    g := BindGuarded(s, ctx, st);
    GuardedGrows(s, ctx, st);
    GrowsEarlier(Targets(ctx), st, g.state);
    AntecedentsInRange(g.state, normalExit);
    AntecedentsInRange(g.state, g.exceptions);
    AntecedentsInRange(g.state, returned);
    var normalList, exceptionList, returnList :=
      Antecedents(g.state.graph, normalExit), Antecedents(g.state.graph, g.exceptions), Antecedents(g.state.graph, returned);
    var node := FinallyLabel(normalList + (exceptionList + returnList));
    s2 := NewNode(SealParts(g.state, normalExit, g.exceptions, returned), node).(flow := |g.state.graph|);
    AppendEarlier(g.state, s2, [node]);
    s3 := BindBlock(s.finalizer.statements, ctx, s2);
    BlockEarlier(s.finalizer.statements, ctx, s2);
    LeaveFinallyGrows(ctx, s3, |g.state.graph|, normalList, exceptionList, returnList);
    GrowsEarlier(Targets(ctx), s3, BindTry(s, ctx, st));
    EarlierTrans(st, g.state, s2);
    EarlierTrans(st, s2, s3);
    EarlierTrans(s2, s3, BindTry(s, ctx, st));
    EarlierTrans(g.state, s2, BindTry(s, ctx, st));
  }

  /** However the guarded parts ended, the finally block starts at a flow that accounts for it. */
  lemma EnterFinallySound(v: View, s: Stmt, ctx: Context, loose: bool, st: State, g: Guarded, s2: State, r: Run)
    requires s.Try? && s.finalizer.SomeBlock?
    requires GuardedOk(v, s, ctx, loose, |st.graph|, |st.graph| + 1, g, r)
    requires v.w.precise ==> !r.outcome.Broke? && !r.outcome.Continued?
    requires !r.outcome.Reached? && !r.outcome.Stopped?
    requires forall f :: f in v.fixed ==> f < |g.state.graph|
    requires |g.state.graph| < |s2.graph| && Extends(s2.graph, v.w.graph)
    requires s2.graph[|g.state.graph|] == FinallyLabel(Antecedents(g.state.graph, |st.graph|)
               + (Antecedents(g.state.graph, g.exceptions) + Antecedents(g.state.graph, |st.graph| + 1)))
    ensures var list := PendingList(r.outcome, Antecedents(g.state.graph, |st.graph|), Antecedents(g.state.graph, g.exceptions),
                                    Antecedents(g.state.graph, |st.graph| + 1));
            && Good(v.w, |g.state.graph|, v.fixed[|g.state.graph| := list], r.machine.past)
            && (r.outcome.Completed? || r.outcome.Raised? || r.outcome.Returned? ==> list != [])
  {
    var n, past := |g.state.graph|, r.machine.past;
    var normalList, exceptionList, returnList :=
      Antecedents(g.state.graph, |st.graph|), Antecedents(g.state.graph, g.exceptions), Antecedents(g.state.graph, |st.graph| + 1);
    var list := PendingList(r.outcome, normalList, exceptionList, returnList);
    assert Refines(s2.graph[n], v.w.graph[n]);
    if r.outcome.Completed? || r.outcome.Raised? || r.outcome.Returned? {
      hide Good, Explains;
      var a :| a in list && Good(v.w, a, v.fixed, past);
      forall x | x in list
        ensures x in v.w.graph[n].antecedents
      {
        assert x in s2.graph[n].antecedents;
      }
      GoodEnterFinally(v.w, n, a, list, v.fixed, past);
    }
  }

  lemma FitsFinally(v: View, ctx: Context, loose: bool, st: State, g: Graph, finallyLabel: FlowId, list: seq<FlowId>)
    requires Fits(v, ctx, loose, st.graph) && Extends(st.graph, g) && |st.graph| <= finallyLabel < |g|
    ensures Fits(FinallyView(v, finallyLabel, list), ctx, true, g)
  {
    FitsLater(v, ctx, loose, st.graph, g);
  }

  /** In the precise reading there is no try statement around, and in the coarse one the run so far does
      not matter: either way the exceptions around a finally block stay covered. */
  lemma CoveredAround(v: View, u: View, past: seq<Event>, past': seq<Event>)
    requires Covered(v, past) && (v.w.precise ==> v.exceptionTarget.None?)
    requires u.w == v.w && u.settled == v.settled && u.exceptionTarget == v.exceptionTarget
    ensures Covered(u, past')
  {
    if v.exceptionTarget.Some? {
      var a :| a in Antecedents(v.settled, v.exceptionTarget.value) && Good(v.w, a, v.fixed, past);
      assert Good(u.w, a, u.fixed, past');
    }
  }

  /** What a run of the finally block that ends abruptly means outside it. */
  lemma FinallyAbrupt(v: View, u: View, ctx: Context, loose: bool, out: State, r: Run, past: seq<Event>)
    requires Settled(u, ctx, true, out, r) && !r.outcome.Completed?
    requires u.w == v.w && u.settled == v.settled && u.exceptionTarget == v.exceptionTarget
    requires v.w.precise ==> v.exceptionTarget.None? && loose && !r.outcome.Broke? && !r.outcome.Continued?
    requires Covered(v, past)
    ensures Settled(v, ctx, loose, out, r)
  {
    CoveredAround(v, v, past, r.machine.past);
    match r.outcome
    case Broke(d) =>
      if BreakTarget(ctx, d).Some? {
        IntoCoarse(v, u, out.graph, BreakTarget(ctx, d).value, r.machine.past, r.machine.past);
      }
    case Continued(d) =>
      if ContinueTarget(ctx, d).Some? {
        IntoCoarse(v, u, out.graph, ContinueTarget(ctx, d).value, r.machine.past, r.machine.past);
      }
    case Returned =>
      if ctx.returnTarget.Some? {
        var a :| a in Antecedents(out.graph, ctx.returnTarget.value) && Explains(u.w, a, r.machine.past);
        assert !v.w.precise ==> Good(v.w, a, v.fixed, r.machine.past);
      }
    case _ =>
  }

  lemma IntoCoarse(v: View, u: View, g: Graph, join: FlowId, past: seq<Event>, past': seq<Event>)
    requires Into(u.w, g, join, u.fixed, past) && u.w == v.w && !v.w.precise
    ensures Into(v.w, g, join, v.fixed, past')
  {
    var a :| a in Antecedents(g, join) && Good(u.w, a, u.fixed, past);
    assert Good(v.w, a, v.fixed, past');
  }

  /** One more flow into an outer label, past the finally block. */
  lemma AddReducedSound(v: View, st: State, target: Option<FlowId>, finallyLabel: FlowId, list: seq<FlowId>,
                        past: seq<Event>)
    requires Valid(st) && target.Some? && IsJoin(st.graph, target.value) && list != []
    requires Good(v.w, st.flow, v.fixed[finallyLabel := list], past)
    requires Extends(AddReduced(st, target, finallyLabel, list).graph, v.w.graph)
    ensures Into(v.w, AddReduced(st, target, finallyLabel, list).graph, target.value, v.fixed, past)
  {
    hide Good, Into, Extends, AddAntecedent;
    var node, n := ReduceLabel(finallyLabel, list, st.flow), |st.graph|;
    var s0 := NewNode(st, node);
    assert s0.flow < |s0.graph| by { FlowInRange(st); }
    AppendEarlier(st, s0, [node]);
    JoinFromEarlier(s0, target.value, n);
    var r := JoinFrom(s0, target.value, n);
    assert Extends(s0.graph, r.graph);
    ExtendsTrans(s0.graph, r.graph, v.w.graph);
    NodeKept(s0.graph, v.w.graph, n);
    GoodLeaveFinally(v.w, n, st.flow, finallyLabel, list, v.fixed, past);
    JoinKept(st.graph, s0.graph, target.value);
    IntoAdded(v.w, s0.graph, target.value, n, v.fixed, past);
  }

  /** The states on the way out of a finally block that completes. */
  ghost predicate LeaveStaged(ctx: Context, st: State, finallyLabel: FlowId, normalList: seq<FlowId>,
                              exceptionList: seq<FlowId>, returnList: seq<FlowId>, s1: State, s2: State) {
    && Valid(st) && !Dead(st)
    && s1 == AddReduced(st, ctx.returnTarget, finallyLabel, returnList)
    && s2 == AddReduced(s1, ctx.exceptionTarget, finallyLabel, exceptionList)
    && s1.flow == st.flow && s2.flow == st.flow
    && (var out := LeaveFinally(ctx, st, finallyLabel, normalList, exceptionList, returnList);
            && (if normalList != [] then out == NewNode(s2, ReduceLabel(finallyLabel, normalList, st.flow)).(flow := |s2.graph|)
                else out == s2.(flow := UNREACHABLE_FLOW))
            && Earlier(st, s1) && Earlier(s1, out) && Earlier(st, out))
  }

  lemma LeaveStages(ctx: Context, st: State, finallyLabel: FlowId, normalList: seq<FlowId>, exceptionList: seq<FlowId>,
                    returnList: seq<FlowId>) returns (s1: State, s2: State)
    requires Valid(st) && !Dead(st)
    ensures LeaveStaged(ctx, st, finallyLabel, normalList, exceptionList, returnList, s1, s2)
  {
    hide Extends, Valid, AddAntecedent, Grows;
    s1 := AddReduced(st, ctx.returnTarget, finallyLabel, returnList);
    s2 := AddReduced(s1, ctx.exceptionTarget, finallyLabel, exceptionList);
    AddReducedGrows(st, ctx.returnTarget, finallyLabel, returnList);
    GrowsEarlier(Optional(ctx.returnTarget), st, s1);
    AddReducedGrows(s1, ctx.exceptionTarget, finallyLabel, exceptionList);
    GrowsEarlier(Optional(ctx.exceptionTarget), s1, s2);
    var node := ReduceLabel(finallyLabel, normalList, s2.flow);
    var s3 := NewNode(s2, node).(flow := |s2.graph|);
    AppendEarlier(s2, s3, [node]);
    assert Valid(s2.(flow := UNREACHABLE_FLOW)) by { UnreachableValid(s2); }
    EarlierTrans(s1, s2, s3);
    EarlierTrans(st, s1, s2);
    EarlierTrans(st, s1, s3);
  }

  lemma UnreachableValid(st: State)
    requires Valid(st)
    ensures Valid(st.(flow := UNREACHABLE_FLOW))
  {
  }

  /** The finally block has completed: what was pending before it takes effect. */
  lemma LeaveFinallySound(v: View, s: Stmt, ctx: Context, loose: bool, st: State, g: Guarded, s3: State, r: Run,
                          m: Machine, past0: seq<Event>)
    requires s.Try? && s.finalizer.SomeBlock? && Around(v, ctx, loose, st, BindTry(s, ctx, st))
    requires g == BindGuarded(s, ctx, st) && Valid(s3) && Earlier(g.state, s3) && Earlier(st, s3)
    requires var normalList, exceptionList, returnList :=
               Antecedents(g.state.graph, |st.graph|), Antecedents(g.state.graph, g.exceptions), Antecedents(g.state.graph, |st.graph| + 1);
             && BindTry(s, ctx, st) == LeaveFinally(ctx, s3, |g.state.graph|, normalList, exceptionList, returnList)
             && var list := PendingList(r.outcome, normalList, exceptionList, returnList);
             && Good(v.w, s3.flow, v.fixed[|g.state.graph| := list], m.past)
             && (r.outcome.Completed? || r.outcome.Raised? || r.outcome.Returned? ==> list != [])
    requires !r.outcome.Reached? && !r.outcome.Stopped?
    requires GuardedOk(v, s, ctx, loose, |st.graph|, |st.graph| + 1, g, r)
    requires v.w.precise ==> v.exceptionTarget.None? && !r.outcome.Broke? && !r.outcome.Continued?
    requires Covered(v, past0) && Earlier(s3, BindTry(s, ctx, st))
    ensures Settled(v, ctx, loose, BindTry(s, ctx, st), Run(r.outcome, m))
  {
    hide Good, Explains, Into, Extends, Covered, Valid, Fits, BindGuarded, AddReduced, LeaveFinally;
    var n, out := |g.state.graph|, BindTry(s, ctx, st);
    var normalList, exceptionList, returnList :=
      Antecedents(g.state.graph, |st.graph|), Antecedents(g.state.graph, g.exceptions), Antecedents(g.state.graph, |st.graph| + 1);
    ExtendsTrans(out.graph, v.settled, v.w.graph);
    ExtendsTrans(s3.graph, out.graph, v.w.graph);
    AliveEarlierAt(v, s3, v.fixed[n := PendingList(r.outcome, normalList, exceptionList, returnList)], m.past);
    var s4, s5 := LeaveStages(ctx, s3, n, normalList, exceptionList, returnList);
    CoveredAround(v, v, past0, m.past);
    EarlierTrans(g.state, s3, out);
    match r.outcome
    case Completed =>
      var node := ReduceLabel(n, normalList, s3.flow);
      assert out.graph[out.flow] == node;
      NodeKept(out.graph, v.w.graph, out.flow);
      GoodLeaveFinally(v.w, out.flow, s3.flow, n, normalList, v.fixed, m.past);
    case Returned =>
      if ctx.returnTarget.Some? {
        ReturnJoin(v, ctx, loose, st, s3);
        ExtendsTrans(s4.graph, out.graph, v.w.graph);
        AddReducedSound(v, s3, ctx.returnTarget, n, returnList, m.past);
        IntoExtends(v.w, s4.graph, out.graph, ctx.returnTarget.value, v.fixed, m.past);
        IntoReturned(v, out.graph, ctx.returnTarget, loose, m.past);
      }
    case Broke(d) =>
      if BreakTarget(ctx, d).Some? {
        IntoCoarse(v, v, g.state.graph, BreakTarget(ctx, d).value, r.machine.past, m.past);
        IntoExtends(v.w, g.state.graph, out.graph, BreakTarget(ctx, d).value, v.fixed, m.past);
      }
    case Continued(d) =>
      if ContinueTarget(ctx, d).Some? {
        IntoCoarse(v, v, g.state.graph, ContinueTarget(ctx, d).value, r.machine.past, m.past);
        IntoExtends(v.w, g.state.graph, out.graph, ContinueTarget(ctx, d).value, v.fixed, m.past);
      }
    case _ =>
  }

  lemma AliveEarlierAt(v: View, st: State, fixed: Env, past: seq<Event>)
    requires Valid(st) && Extends(st.graph, v.w.graph) && Good(v.w, st.flow, fixed, past)
    ensures !Dead(st)
  {
    assert Refines(st.graph[st.flow], v.w.graph[st.flow]);
  }

  lemma ReturnJoin(v: View, ctx: Context, loose: bool, st: State, later: State)
    requires Fits(v, ctx, loose, st.graph) && Earlier(st, later) && ctx.returnTarget.Some?
    ensures IsJoin(later.graph, ctx.returnTarget.value)
  {
    hide Extends;
    JoinKept(st.graph, later.graph, ctx.returnTarget.value);
  }

  lemma IntoReturned(v: View, g: Graph, target: Option<FlowId>, loose: bool, past: seq<Event>)
    requires target.Some? && Into(v.w, g, target.value, v.fixed, past)
    ensures ReturnedInto(v, g, target, loose, past)
  {
    hide Good, Explains;
    var a :| a in Antecedents(g, target.value) && Good(v.w, a, v.fixed, past);
    GoodExplains(v.w, a, v.fixed, past);
  }

  lemma {:induction false} TrySound(s: Stmt, ctx: Context, st: State, v: View, loose: bool, m: Machine)
    requires s.Try? && ctx.wrapping == 0 && Enters(v, ctx, loose, st, BindTry(s, ctx, st), m.past)
    requires v.w.precise ==> Simple(s, v.exceptionTarget.Some?, {})
    ensures Settled(v, ctx, loose, BindTry(s, ctx, st), ExecTry(s, m))
    decreases |m.future|, s, 2
  {
    hide Good, Into, Extends, Covered, Valid, Fits, Explains, BindBlock, AddAntecedent, FinishFlowLabel, ExecSeq,
         ExecGuarded, BindGuarded, LeaveFinally, Settled, GuardedOk;
    var normalExit, out := |st.graph|, BindTry(s, ctx, st);
    var r := ExecGuarded(s, m);
    if s.finalizer.NoBlock? {
      TryWithoutFinally(s, ctx, st, v, loose, m);
    } else {
      var g, s2, s3 := TryStages(s, ctx, st);
      EarlierRefl(st);
      ReadyPart(v, ctx, loose, st, out, st, g.state, m.past);
      GuardedSound(s, ctx, st, v, loose, m);
      if r.outcome.Reached? || r.outcome.Stopped? {
        StoppedGuarded(v, s, ctx, loose, st, g, out, r);
      } else {
        GuardedWithin(s, m);
        FinallySound(s, ctx, st, v, loose, g, s2, s3, r, m.past);
      }
    }
  }

  lemma StoppedGuarded(v: View, s: Stmt, ctx: Context, loose: bool, st: State, g: Guarded, out: State, r: Run)
    requires s.Try? && GuardedOk(v, s, ctx, loose, |st.graph|, |st.graph| + 1, g, r) && (r.outcome.Reached? || r.outcome.Stopped?)
    requires Earlier(g.state, out)
    ensures Settled(v, ctx, loose, out, r)
  {
    hide Explains;
  }

  lemma {:induction false} TryWithoutFinally(s: Stmt, ctx: Context, st: State, v: View, loose: bool, m: Machine)
    requires s.Try? && s.finalizer.NoBlock? && ctx.wrapping == 0
    requires Enters(v, ctx, loose, st, BindTry(s, ctx, st), m.past)
    requires v.w.precise ==> Simple(s, v.exceptionTarget.Some?, {})
    ensures Settled(v, ctx, loose, BindTry(s, ctx, st), ExecTry(s, m))
    decreases |m.future|, s, 1, 1
  {
    hide Good, Into, Extends, Covered, Valid, Fits, Explains, BindBlock, AddAntecedent, FinishFlowLabel, ExecSeq,
         ExecGuarded, BindGuarded;
    var normalExit, out := |st.graph|, BindTry(s, ctx, st);
    var g := BindGuarded(s, ctx, st);
    var r := ExecGuarded(s, m);
    GuardedGrows(s, ctx, st);
    GrowsEarlier(Targets(ctx), st, g.state);
    ResumeEarlier(g.state, normalExit);
    EarlierRefl(st);
    ReadyPart(v, ctx, loose, st, out, st, g.state, m.past);
    GuardedSound(s, ctx, st, v, loose, m);
    CoveredAround(v, v, m.past, r.machine.past);
    if r.outcome.Completed? {
      GuardedExitJoin(s, ctx, st);
      IntoFinished(v.w, g.state.graph, normalExit, v.fixed, r.machine.past);
    }
  }

  lemma GuardedExitJoin(s: Stmt, ctx: Context, st: State)
    requires s.Try? && Valid(st)
    ensures IsJoin(BindGuarded(s, ctx, st).state.graph, |st.graph|)
  {
    hide Extends, Valid, BindBlock, AddAntecedent, FinishFlowLabel, BindTryBlock, TryContext;
    var g0, e0, t, s1 := TryBlockStages(s, ctx, st);
    JoinKept(g0.graph, s1.graph, |st.graph|);
    if s.handler.SomeBlock? {
      var c0, c1, e, t', s2 := HandlerStages(s, ctx, st, s1);
      JoinKept(s1.graph, s2.graph, |st.graph|);
    }
  }

  /** A finally block that completes lets the pending outcome take effect. */
  ghost predicate SettledAfter(v: View, ctx: Context, loose: bool, out: State, pending: Outcome, f: Run) {
    Settled(v, ctx, loose, out, if f.outcome.Completed? then Run(pending, f.machine) else f)
  }

  /** The guarded parts have ended as `r`; next comes the finally block, bound from `s2` to `s3`. */
  ghost predicate BeforeFinally(s: Stmt, ctx: Context, st: State, v: View, loose: bool, g: Guarded, s2: State,
                                s3: State, r: Run, past0: seq<Event>) {
    && s.Try? && s.finalizer.SomeBlock? && ctx.wrapping == 0 && Around(v, ctx, loose, st, BindTry(s, ctx, st))
    && Covered(v, past0)
    && (v.w.precise ==> Simple(s, v.exceptionTarget.Some?, {}))
    && Within(r.outcome, EscapesSeq(s.block) + (if s.handler.SomeBlock? then EscapesSeq(s.handler.statements) else {}))
    && g == BindGuarded(s, ctx, st) && s3 == BindBlock(s.finalizer.statements, ctx, s2)
    && s2 == NewNode(SealParts(g.state, |st.graph|, g.exceptions, |st.graph| + 1), FinallyLabel(Antecedents(g.state.graph, |st.graph|)
                     + (Antecedents(g.state.graph, g.exceptions) + Antecedents(g.state.graph, |st.graph| + 1)))).(flow := |g.state.graph|)
    && BindTry(s, ctx, st) == LeaveFinally(ctx, s3, |g.state.graph|, Antecedents(g.state.graph, |st.graph|),
                                           Antecedents(g.state.graph, g.exceptions), Antecedents(g.state.graph, |st.graph| + 1))
    && Earlier(st, g.state) && Earlier(g.state, s2) && Earlier(s2, s3) && Earlier(s3, BindTry(s, ctx, st))
    && Earlier(st, s3)
    && !r.outcome.Reached? && !r.outcome.Stopped?
    && GuardedOk(v, s, ctx, loose, |st.graph|, |st.graph| + 1, g, r)
  }

  lemma {:induction false} FinallySound(s: Stmt, ctx: Context, st: State, v: View, loose: bool, g: Guarded, s2: State,
                                        s3: State, r: Run, past0: seq<Event>)
    requires BeforeFinally(s, ctx, st, v, loose, g, s2, s3, r, past0)
    ensures SettledAfter(v, ctx, loose, BindTry(s, ctx, st), r.outcome, ExecSeq(s.finalizer.statements, r.machine))
    decreases |r.machine.future|, s, 1, 0
  {
    hide Good, Into, Extends, Covered, Valid, Explains, BindBlock, AddAntecedent, FinishFlowLabel, ExecSeq, BindGuarded,
         LeaveFinally, Settled, GuardedOk, BindTry;
    var n, out := |g.state.graph|, BindTry(s, ctx, st);
    var list := PendingList(r.outcome, Antecedents(g.state.graph, |st.graph|), Antecedents(g.state.graph, g.exceptions),
                            Antecedents(g.state.graph, |st.graph| + 1));
    assert v.w.precise ==> !r.outcome.Broke? && !r.outcome.Continued?;
    ExtendsTrans(s3.graph, out.graph, v.settled);
    ExtendsTrans(s3.graph, v.settled, v.w.graph);
    ExtendsTrans(s2.graph, s3.graph, v.w.graph);
    ExtendsLength(st.graph, g.state.graph);
    EnterFinallySound(v, s, ctx, loose, st, g, s2, r);
    var u := FinallyView(v, n, list);
    ExtendsTrans(st.graph, g.state.graph, s2.graph);
    FitsFinally(v, ctx, loose, st, s2.graph, n, list);
    CoveredAround(v, u, past0, r.machine.past);
    ExceptionLabelKept(st.graph, s2.graph, v.exceptionTarget);
    BlockSound(s.finalizer.statements, ctx, s2, u, true, r.machine);
    var f := ExecSeq(s.finalizer.statements, r.machine);
    if f.outcome.Completed? {
      SettledGood(u, ctx, true, s3, f);
      EarlierTrans(g.state, s2, s3);
      LeaveFinallySound(v, s, ctx, loose, st, g, s3, r, f.machine, past0);
    } else {
      SeqWithin(s.finalizer.statements, r.machine);
      FinallyAbrupt(v, u, ctx, loose, s3, f, past0);
      SettledLater(v, ctx, loose, s3, out, f);
    }
  }

  // ----- switch -----

  lemma {:induction false} SimpleClause(clauses: seq<Clause>, inTry: bool, i: nat)
    requires SimpleClauses(clauses, inTry) && i < |clauses|
    ensures AssignsNothingIfAny(clauses[i].test) && SimpleSeq(clauses[i].body, inTry)
  {
    if i > 0 {
      SimpleClause(clauses[1..], inTry, i - 1);
    }
  }

  /** Evaluating the tests leaves every flow before the clauses as it is. */
  lemma {:induction false} SelectDrifts(w: World, clauses: seq<Clause>, inTry: bool, i: nat, m: Machine)
    requires i <= |clauses| && (w.precise ==> SimpleClauses(clauses, inTry))
    ensures Drifts(w, m, SelectClause(clauses, i, m).machine)
    decreases |clauses| - i
  {
    hide Quiet, Eval;
    QuietRefl(m);
    if i < |clauses| {
      if w.precise {
        SimpleClause(clauses, inTry, i);
      }
      if clauses[i].test.None? {
        SelectDrifts(w, clauses, inTry, i + 1, m);
      } else {
        var t := Eval(clauses[i].test.value, m);
        if w.precise {
          AssignsNothingQuiet(clauses[i].test.value, m);
        }
        if t.outcome.Value? && t.machine.future != [] {
          var m' := Tick(t.machine);
          SelectDrifts(w, clauses, inTry, i + 1, m');
          if w.precise {
            TickQuiet(m, t.machine);
            QuietTrans(m, m', SelectClause(clauses, i + 1, m').machine);
          }
        }
      }
    }
  }

  lemma TickQuiet(m: Machine, m': Machine)
    requires Quiet(m, m') && m'.future != []
    ensures Quiet(m, Tick(m'))
  {
  }

  ghost predicate SwitchStaged(s: Stmt, ctx: Context, st: State, s0: State, s1: State) {
    && s.Switch? && Valid(st)
    && s0 == NewNode(st, BranchLabel([])) && s1 == BindExpr(s.expr, AsValue, ctx.exceptionTarget, s0)
    && Earlier(st, s0) && Earlier(s0, s1) && Earlier(st, s1) && s1.flow < |s1.graph|
  }

  lemma SwitchStages(s: Stmt, ctx: Context, st: State) returns (s0: State, s1: State)
    requires s.Switch? && Valid(st)
    ensures SwitchStaged(s, ctx, st, s0, s1)
  {
    hide Extends, Valid, BindExpr;
    s0 := NewNode(st, BranchLabel([]));
    assert s0.flow < |s0.graph| by { FlowInRange(st); }
    AppendEarlier(st, s0, [BranchLabel([])]);
    s1 := BindExpr(s.expr, AsValue, ctx.exceptionTarget, s0);
    ExprEarlier(s.expr, AsValue, ctx.exceptionTarget, s0);
    EarlierTrans(st, s0, s1);
    FlowInRange(s1);
  }

  function SwitchContext(ctx: Context, post: FlowId): Context {
    Inner(ctx).(breakTarget := Some(post))
  }

  ghost predicate SwitchEndStaged(s: Stmt, ctx: Context, st: State, s1: State, s2: State, s3: State, s4: State) {
    && s.Switch? && Valid(s1) && !Dead(s1)
    && s1 == BindExpr(s.expr, AsValue, ctx.exceptionTarget, NewNode(st, BranchLabel([])))
    && s2 == BindClauses(s, s.clauses, 0, s1.flow, UNREACHABLE_FLOW, SwitchContext(ctx, |st.graph|), s1)
    && s3 == Join(s2, |st.graph|)
    && (s4 == if HasDefault(s.clauses) then s3
                  else JoinFrom(NewNode(s3, SwitchClause(s.id, 0, 0, s1.flow)), |st.graph|, |s3.graph|))
    && BindSwitch(s, ctx, st) == Resume(s4, |st.graph|)
    && Earlier(s1, s2) && Earlier(s2, s3) && Earlier(s3, s4) && Earlier(s4, BindSwitch(s, ctx, st))
    && Earlier(s2, s4) && Earlier(s1, s3) && Earlier(s1, BindSwitch(s, ctx, st)) && Earlier(s2, BindSwitch(s, ctx, st))
  }

  lemma SwitchEndStages(s: Stmt, ctx: Context, st: State, s1: State) returns (s2: State, s3: State, s4: State)
    requires s.Switch? && Valid(s1) && !Dead(s1)
    requires s1 == BindExpr(s.expr, AsValue, ctx.exceptionTarget, NewNode(st, BranchLabel([])))
    ensures SwitchEndStaged(s, ctx, st, s1, s2, s3, s4)
  {
    hide Extends, BindExpr, BindClauses, AddAntecedent, FinishFlowLabel, Grows, Targets;
    var post := |st.graph|;
    var inner := SwitchContext(ctx, post);
    s2 := BindClauses(s, s.clauses, 0, s1.flow, UNREACHABLE_FLOW, inner, s1);
    ClausesGrow(s, s.clauses, 0, s1.flow, UNREACHABLE_FLOW, inner, s1);
    GrowsEarlier(Targets(inner), s1, s2);
    s3 := Join(s2, post);
    JoinEarlier(s2, post);
    var node := SwitchClause(s.id, 0, 0, s1.flow);
    var t := NewNode(s3, node);
    AppendEarlier(s3, t, [node]);
    JoinFromEarlier(t, post, |s3.graph|);
    EarlierTrans(s3, t, JoinFrom(t, post, |s3.graph|));
    s4 := if HasDefault(s.clauses) then s3 else JoinFrom(t, post, |s3.graph|);
    EarlierRefl(s3);
    ResumeEarlier(s4, post);
    EarlierTrans(s2, s3, s4);
    EarlierTrans(s1, s2, s3);
    EarlierTrans(s1, s2, s4);
    EarlierTrans(s1, s4, Resume(s4, post));
    EarlierTrans(s2, s4, Resume(s4, post));
  }

  lemma {:induction false} SwitchSound(s: Stmt, ctx: Context, st: State, v: View, loose: bool, labels: set<string>,
                                       m: Machine)
    requires s.Switch? && Enters(v, ctx, loose, st, BindSwitch(s, ctx, st), m.past)
    requires v.w.precise ==> Simple(s, v.exceptionTarget.Some?, labels)
    ensures Settled(v, ctx, loose, BindSwitch(s, ctx, st), ExecLive(s, labels, m))
    decreases |m.future|, s, 1
  {
    hide Good, Into, Extends, Covered, Valid, Fits, Explains, BindExpr, BindClauses, AddAntecedent, FinishFlowLabel,
         Eval, ExecSwitch, BindSwitch;
    var out := BindSwitch(s, ctx, st);
    var s0, s1 := SwitchStages(s, ctx, st);
    SwitchGrows(s, ctx, st);
    SwitchExprEarlier(s, ctx, st, s1);
    ReadyPart(v, ctx, loose, st, out, s0, s1, m.past);
    ValueSound(s.expr, s0, v, m);
    var a := Eval(s.expr, m);
    if a.outcome.Value? {
      SwitchBodySound(s, ctx, st, v, loose, a.machine, s0, s1);
    } else {
      SettledAbrupt(v, ctx, loose, out, a);
    }
  }

  lemma SwitchExprEarlier(s: Stmt, ctx: Context, st: State, s1: State)
    requires s.Switch? && Valid(st)
    requires s1 == BindExpr(s.expr, AsValue, ctx.exceptionTarget, NewNode(st, BranchLabel([]))) && Valid(s1)
    ensures Earlier(s1, BindSwitch(s, ctx, st))
  {
    hide Extends, BindExpr, BindClauses, BindDeadClauses, AddAntecedent, FinishFlowLabel, Grows, Targets;
    if !Dead(s1) {
      var s2, s3, s4 := SwitchEndStages(s, ctx, st, s1);
    } else {
      var post := |st.graph|;
      var s2 := BindDeadClauses(s.clauses, s1);
      DeadClausesGrow(s.clauses, s1);
      GrowsEarlier({}, s1, s2);
      var s3 := Join(s2, post);
      JoinEarlier(s2, post);
      var node := SwitchClause(s.id, 0, 0, s1.flow);
      var t := NewNode(s3, node);
      AppendEarlier(s3, t, [node]);
      JoinFromEarlier(t, post, |s3.graph|);
      EarlierTrans(s3, t, JoinFrom(t, post, |s3.graph|));
      var s4 := if HasDefault(s.clauses) then s3 else JoinFrom(t, post, |s3.graph|);
      EarlierRefl(s3);
      ResumeEarlier(s4, post);
      EarlierTrans(s1, s2, s3);
      EarlierTrans(s1, s3, s4);
      EarlierTrans(s1, s4, Resume(s4, post));
    }
  }

  /** The clauses, once the expression is evaluated. */
  lemma {:induction false} SwitchBodySound(s: Stmt, ctx: Context, st: State, v: View, loose: bool, m: Machine,
                                           s0: State, s1: State)
    requires s.Switch? && Around(v, ctx, loose, st, BindSwitch(s, ctx, st))
    requires v.w.precise ==> SimpleClauses(s.clauses, v.exceptionTarget.Some?)
    requires s0 == NewNode(st, BranchLabel([])) && s1 == BindExpr(s.expr, AsValue, ctx.exceptionTarget, s0)
    requires Earlier(st, s0) && Earlier(s0, s1) && Earlier(st, s1) && Earlier(s1, BindSwitch(s, ctx, st))
    requires Good(v.w, s1.flow, v.fixed, m.past) && Covered(v, m.past)
    ensures Settled(v, ctx, loose, BindSwitch(s, ctx, st), ExecSwitch(s, m))
    decreases |m.future|, s, 1
  {
    hide Good, Into, Extends, Covered, Valid, Fits, Explains, BindExpr, BindClauses, AddAntecedent, FinishFlowLabel,
         SelectClause, ExecClauses, BindSwitch, Settled, Drifts;
    var post, out := |st.graph|, BindSwitch(s, ctx, st);
    OutExtends(v, ctx, loose, st, out, s1);
    AliveEarlierAt(v, s1, v.fixed, m.past);
    var s2, s3, s4 := SwitchEndStages(s, ctx, st, s1);
    var sel := SelectClause(s.clauses, 0, m);
    SelectDrifts(v.w, s.clauses, v.exceptionTarget.Some?, 0, m);
    SelectionAbrupt(s.clauses, 0, m);
    GoodDrifts(v.w, s1.flow, v.fixed, m, sel.machine);
    CoveredDrifts(v, m, sel.machine);
    JoinKept(s0.graph, s1.graph, post);
    JoinKept(s0.graph, s1.graph, post);
    JoinKept(s1.graph, s2.graph, post);
    JoinKept(s1.graph, s3.graph, post);
    if sel.selection.Failed? {
      SettledFailed(v, ctx, loose, out, sel.selection.run);
    } else if sel.selection.NoMatch? && !HasDefault(s.clauses) {
      NothingSelected(v, s, ctx, loose, st, s1.flow, s3, s4, sel.machine);
    } else {
      var k := if sel.selection.Chosen? then sel.selection.index else DefaultIndex(s.clauses);
      var m' := Emit(sel.machine, Selected(s.id, Some(k)));
      var inner := SwitchContext(ctx, post);
      FitsLater(v, ctx, loose, st.graph, s1.graph);
      FitsSwitch(v, ctx, loose, s1.graph, post);
      ExceptionLabelKept(st.graph, s1.graph, v.exceptionTarget);
      ExtendsTrans(s2.graph, out.graph, v.settled);
      FlowInRange(s1);
      assert UNREACHABLE_FLOW < |s1.graph|;
      ClausesSound(s, s.clauses, 0, s1.flow, UNREACHABLE_FLOW, inner, s1, v, loose, false, k, sel.machine);
      LeaveSwitch(v, ctx, loose, st, post, s2, s3, s4, ExecClauses(s.clauses, k, m'));
    }
  }

  lemma SettledFailed(v: View, ctx: Context, loose: bool, out: State, r: Run)
    requires r.outcome.Raised? || r.outcome.Stopped?
    requires Covered(v, r.machine.past)
    ensures Settled(v, ctx, loose, out, r)
  {
  }

  lemma FitsSwitch(v: View, ctx: Context, loose: bool, g: Graph, post: FlowId)
    requires Fits(v, ctx, loose, g) && IsJoin(g, post)
    ensures Fits(v, SwitchContext(ctx, post), loose, g)
  {
  }

  /** No clause matched: past the switch through the node for that. */
  lemma NothingSelected(v: View, s: Stmt, ctx: Context, loose: bool, st: State, pre: FlowId, s3: State, s4: State,
                        m: Machine)
    requires s.Switch? && Around(v, ctx, loose, st, Resume(s4, |st.graph|))
    requires s4 == JoinFrom(NewNode(s3, SwitchClause(s.id, 0, 0, pre)), |st.graph|, |s3.graph|)
    requires Valid(s3) && Earlier(s3, s4) && IsJoin(s3.graph, |st.graph|)
    requires Good(v.w, pre, v.fixed, m.past) && Covered(v, m.past)
    ensures Settled(v, ctx, loose, Resume(s4, |st.graph|), Run(Completed, Emit(m, Selected(s.id, None))))
  {
    hide Good, Into, Extends, Covered, Valid, Fits, Explains, AddAntecedent, FinishFlowLabel;
    var post, n, ev := |st.graph|, |s3.graph|, Selected(s.id, None);
    var node := SwitchClause(s.id, 0, 0, pre);
    var t := NewNode(s3, node);
    assert t.flow < |t.graph| by { FlowInRange(s3); }
    AppendEarlier(s3, t, [node]);
    JoinFromEarlier(t, post, n);
    ExtendsTrans(s4.graph, v.settled, v.w.graph);
    ExtendsTrans(t.graph, s4.graph, v.w.graph);
    NodeKept(t.graph, v.w.graph, n);
    GoodStep(v.w, n, pre, v.fixed, m.past, ev);
    JoinKept(s3.graph, t.graph, post);
    IntoAdded(v.w, t.graph, post, n, v.fixed, m.past + [ev]);
    JoinKept(t.graph, s4.graph, post);
    EmitQuiet(m, ev);
    CoveredQuiet(v, m, Emit(m, ev));
    EarlierRefl(s4);
    LeaveAtPost(v, ctx, loose, st, s4, s4, post, m.past + [ev]);
  }

  lemma EmitQuiet(m: Machine, ev: Event)
    requires !ev.Assigned?
    ensures Quiet(m, Emit(m, ev))
  {
  }

  /** From the end of the clauses, or a break, to the flow after the switch. */
  lemma LeaveSwitch(v: View, ctx: Context, loose: bool, st: State, post: FlowId, s2: State, s3: State, s4: State, r: Run)
    requires Around(v, ctx, loose, st, Resume(s4, post)) && Settled(v, SwitchContext(ctx, post), loose, s2, r)
    requires Valid(s2) && s3 == Join(s2, post) && Earlier(s3, s4) && Earlier(s2, s4) && IsJoin(s2.graph, post)
    ensures Settled(v, ctx, loose, Resume(s4, post), LeaveLoop(r))
  {
    hide Good, Into, Extends, Covered, Valid, Fits, Explains, AddAntecedent, FinishFlowLabel;
    if r.outcome == Broke(None) {
      JoinKept(s2.graph, s4.graph, post);
      LeaveAtPost(v, ctx, loose, st, s2, s4, post, r.machine.past);
    } else {
      assert Settled(v, ctx, loose, s2, r);
      JoinPost(v, ctx, loose, st, s2, s4, post, r);
    }
  }

  /** Clauses without statements run into the next one. */
  lemma {:induction false} EmptiesRun(clauses: seq<Clause>, k: nat, i: nat, m: Machine)
    requires k <= i <= |clauses| && forall j :: k <= j < i ==> clauses[j].body == []
    ensures ExecClauses(clauses, k, m) == ExecClauses(clauses, i, m)
    decreases i - k
  {
    if k < i {
      EmptiesRun(clauses, k + 1, i, m);
    }
  }

  /** The last clauses of a switch. Either the run is about to fall into them (`running`), or clause `k`
      of them has been selected. */
  lemma {:induction false} ClausesSound(s: Stmt, rest: seq<Clause>, start: nat, pre: FlowId, fall: FlowId, ctx: Context,
                                        st: State,
                                        v: View, loose: bool, running: bool, k: nat, m: Machine)
    requires s.Switch? && |rest| <= |s.clauses| && rest == s.clauses[|s.clauses| - |rest|..]
    requires start <= |s.clauses| - |rest| && forall j :: start <= j < |s.clauses| - |rest| ==> s.clauses[j].body == []
    requires rest == [] ==> start == |s.clauses| && (running ==> st.flow == fall)
    requires start <= k <= |s.clauses| && (if running then k == start else k < |s.clauses|)
    requires pre < |st.graph| && fall < |st.graph| && ctx.wrapping == 0
    requires Around(v, ctx, loose, st, BindClauses(s, rest, start, pre, fall, ctx, st))
    requires v.w.precise ==> SimpleClauses(s.clauses, v.exceptionTarget.Some?)
    requires Good(v.w, if running then fall else pre, v.fixed, m.past) && Covered(v, m.past)
    ensures Settled(v, ctx, loose, BindClauses(s, rest, start, pre, fall, ctx, st),
                    ExecClauses(s.clauses, k, if running then m else Emit(m, Selected(s.id, Some(k)))))
    decreases |m.future|, s, 0, |rest|
  {
    hide Good, Into, Extends, Covered, Valid, Fits, Explains, BindClause, EnterGroup, ExecClauses, Grows, Targets,
         Settled, Simple, SimpleSeq, SimpleClauses, ExceptionLabel;
    var i := |s.clauses| - |rest|;
    var out := BindClauses(s, rest, start, pre, fall, ctx, st);
    if rest == [] {
      ClausesDone(s.clauses, m);
      SettledCompleted(v, ctx, loose, out, m);
    } else if rest[0].body == [] && |rest| > 1 {
      var s1 := if fall == UNREACHABLE_FLOW then st.(flow := pre) else st;
      var s2 := BindClause(rest[0], pre, ctx, s1);
      assert s1.flow < |s1.graph| by { FlowInRange(st); }
      MoveEarlier(st, s1);
      ClauseGrows(rest[0], pre, ctx, s1);
      GrowsEarlier(Targets(ctx), s1, s2);
      EarlierTrans(st, s1, s2);
      ExtendsLength(st.graph, s2.graph);
      AroundLater(v, ctx, loose, st, s2, out);
      assert rest[1..] == s.clauses[i + 1..];
      ClausesSound(s, rest[1..], start, pre, fall, ctx, s2, v, loose, running, k, m);
    } else {
      var e := EnterGroup(s, start, i + 1, pre, fall, st);
      var s2 := BindClause(rest[0], pre, ctx, e);
      EnterGroupGrows(s, start, i + 1, pre, fall, st);
      GrowsEarlier({}, st, e);
      ExtendsLength(st.graph, e.graph);
      ClauseGrows(rest[0], pre, ctx, e);
      GrowsEarlier(Targets(ctx), e, s2);
      EarlierTrans(st, e, s2);
      ExtendsLength(st.graph, s2.graph);
      FlowInRange(s2);
      ClausesGrow(s, rest[1..], i + 1, pre, s2.flow, ctx, s2);
      GrowsEarlier(Targets(ctx), s2, out);
      AroundLater(v, ctx, loose, st, s2, out);
      assert rest[1..] == s.clauses[i + 1..];
      if running || k <= i {
        GroupSound(s, start, i, pre, fall, ctx, st, v, loose, running, k, m, e, s2, out);
        var m' := if running then m else Emit(m, Selected(s.id, Some(k)));
        var r := ExecSeq(rest[0].body, m');
        ClauseRun(s.clauses, k, i, m');
        if r.outcome.Completed? {
          SettledGood(v, ctx, loose, s2, r);
          ClausesSound(s, rest[1..], i + 1, pre, s2.flow, ctx, s2, v, loose, true, i + 1, r.machine);
        } else {
          SettledLater(v, ctx, loose, s2, out, r);
        }
      } else {
        ClausesSound(s, rest[1..], i + 1, pre, s2.flow, ctx, s2, v, loose, false, k, m);
      }
    }
  }

  lemma ClausesDone(clauses: seq<Clause>, m: Machine)
    ensures ExecClauses(clauses, |clauses|, m) == Run(Completed, m)
  {
  }

  lemma ClauseRun(clauses: seq<Clause>, k: nat, i: nat, m: Machine)
    requires k <= i < |clauses| && forall j :: k <= j < i ==> clauses[j].body == []
    ensures var r := ExecSeq(clauses[i].body, m);
            ExecClauses(clauses, k, m) == if r.outcome.Completed? then ExecClauses(clauses, i + 1, r.machine) else r
  {
    EmptiesRun(clauses, k, i, m);
  }

  lemma AroundLater(v: View, ctx: Context, loose: bool, st: State, later: State, out: State)
    requires Around(v, ctx, loose, st, out) && Earlier(st, later)
    ensures Around(v, ctx, loose, later, out)
  {
    hide Extends, Fits, ExceptionLabel;
    ExceptionLabelKept(st.graph, later.graph, v.exceptionTarget);
    FitsLater(v, ctx, loose, st.graph, later.graph);
  }

  /** The statements of one group of clauses, entered by selection or by falling into it. */
  lemma {:induction false} GroupSound(s: Stmt, start: nat, i: nat, pre: FlowId, fall: FlowId, ctx: Context, st: State,
                                      v: View, loose: bool, running: bool, k: nat, m: Machine, e: State, s2: State, out: State)
    requires s.Switch? && start <= k <= i < |s.clauses| && pre < |st.graph| && fall < |st.graph| && ctx.wrapping == 0
    requires Around(v, ctx, loose, st, out) && Earlier(st, e) && Earlier(e, s2) && Earlier(s2, out)
    requires e == EnterGroup(s, start, i + 1, pre, fall, st) && s2 == BindClause(s.clauses[i], pre, ctx, e)
    requires v.w.precise ==> SimpleClauses(s.clauses, v.exceptionTarget.Some?)
    requires Good(v.w, if running then fall else pre, v.fixed, m.past) && Covered(v, m.past)
    ensures Settled(v, ctx, loose, s2, ExecSeq(s.clauses[i].body, if running then m else Emit(m, Selected(s.id, Some(k)))))
    decreases |m.future|, s, 0, 0
  {
    hide Good, Into, Extends, Covered, Valid, Fits, Explains, EnterGroup, ExecSeq, Grows, Targets, Settled, Simple,
         SimpleSeq, SimpleClauses, ExceptionLabel, BindExpr, BindEach, BindDeads;
    var c, exc := s.clauses[i], ctx.exceptionTarget;
    var m' := if running then m else Emit(m, Selected(s.id, Some(k)));
    OutExtends(v, ctx, loose, st, out, s2);
    ExtendsTrans(e.graph, s2.graph, v.w.graph);
    EnterGroupSound(v, s, start, i + 1, pre, fall, st, running, k, m);
    if !running {
      EmitQuiet(m, Selected(s.id, Some(k)));
      CoveredQuiet(v, m, m');
    }
    AliveEarlierAt(v, e, v.fixed, m'.past);
    var s1 := e;
    ExtendsLength(st.graph, e.graph);
    EarlierRefl(e);
    if c.test.Some? {
      var t0 := e.(flow := pre);
      MoveEarlier(e, t0);
      var t1 := BindExpr(c.test.value, AsValue, exc, t0);
      ExprEarlier(c.test.value, AsValue, exc, t0);
      s1 := t1.(flow := e.flow);
      ExtendsLength(t0.graph, t1.graph);
      FlowInRange(e);
      MoveEarlier(t1, s1);
      EarlierTrans(e, t0, t1);
      EarlierTrans(e, t1, s1);
    }
    EachEarlier(c.body, ctx, s1);
    EarlierTrans(st, e, s1);
    ReadyPart(v, ctx, loose, st, out, s1, s2, m'.past);
    if v.w.precise {
      SimpleClause(s.clauses, v.exceptionTarget.Some?, i);
    }
    EachSound(c.body, ctx, s1, v, loose, m');
  }

  lemma EnterGroupSound(v: View, s: Stmt, start: nat, end: nat, pre: FlowId, fall: FlowId, st: State, running: bool,
                        k: nat, m: Machine)
    requires s.Switch? && start <= k < end && Valid(st) && pre < |st.graph| && fall < |st.graph|
    requires Extends(EnterGroup(s, start, end, pre, fall, st).graph, v.w.graph)
    requires Good(v.w, if running then fall else pre, v.fixed, m.past)
    ensures Good(v.w, EnterGroup(s, start, end, pre, fall, st).flow, v.fixed,
                 (if running then m else Emit(m, Selected(s.id, Some(k)))).past)
  {
    hide Good, Into, Extends, AddAntecedent, FinishFlowLabel;
    var preCase, ev := |st.graph|, Selected(s.id, Some(k));
    var s0 := NewNode(st, BranchLabel([]));
    assert s0.flow < |s0.graph| by { FlowInRange(st); }
    AppendEarlier(st, s0, [BranchLabel([])]);
    var node := SwitchClause(s.id, start, end, pre);
    var t := NewNode(s0, node);
    AppendEarlier(s0, t, [node]);
    var narrowing := IsNarrowingSwitch(s.expr);
    var before := if narrowing then t else s0;
    var from := if narrowing then |s0.graph| else pre;
    EarlierRefl(s0);
    var s1 := JoinFrom(before, preCase, from);
    JoinFromEarlier(before, preCase, from);
    ExtendsLength(before.graph, s1.graph);
    var s2 := JoinFrom(s1, preCase, fall);
    JoinFromEarlier(s1, preCase, fall);
    ExtendsTrans(s1.graph, s2.graph, v.w.graph);
    ExtendsTrans(before.graph, s1.graph, v.w.graph);
    assert IsJoin(s0.graph, preCase);
    JoinKept(s0.graph, before.graph, preCase);
    JoinKept(before.graph, s1.graph, preCase);
    JoinKept(s1.graph, s2.graph, preCase);
    if running {
      IntoAdded(v.w, s1.graph, preCase, fall, v.fixed, m.past);
      IntoFinished(v.w, s2.graph, preCase, v.fixed, m.past);
    } else {
      if narrowing {
        NodeKept(t.graph, v.w.graph, from);
        GoodStep(v.w, from, pre, v.fixed, m.past, ev);
      } else {
        GoodLater(v.w, pre, v.fixed, m.past, ev);
      }
      IntoAdded(v.w, before.graph, preCase, from, v.fixed, m.past + [ev]);
      IntoExtends(v.w, s1.graph, s2.graph, preCase, v.fixed, m.past + [ev]);
      IntoFinished(v.w, s2.graph, preCase, v.fixed, m.past + [ev]);
    }
  }

  // ----- every statement -----

  lemma {:induction false} StmtSound(s: Stmt, ctx: Context, st: State, v: View, loose: bool, labels: set<string>,
                                     m: Machine)
    requires Enters(v, ctx, loose, st, BindStmt(s, ctx, st), m.past)
    requires labels == WrappingNames(ctx) && (v.w.precise ==> Simple(s, v.exceptionTarget.Some?, labels))
    ensures Settled(v, ctx, loose, BindStmt(s, ctx, st), Exec(s, labels, m))
    decreases |m.future|, s, 3
  {
    hide Good, Into, Extends, Covered, Valid, Fits, Explains, BindLive, ExecLive, Simple, BindContainer, BindDead;
    var out := BindStmt(s, ctx, st);
    StmtEarlier(s, ctx, st);
    if s.Function? {
      ContainerKeepsFlow(s, st);
      FunctionRuns(s, ctx, out, v, loose, labels, m);
    } else {
      ReadyAlive(v, st, out, m.past);
      var s0 := Record(s, st);
      FlowInRange(st);
      MoveEarlier(st, s0);
      GrowsLive(s, ctx, s0);
      EarlierRefl(out);
      ReadyPart(v, ctx, loose, st, out, s0, out, m.past);
      if m.future != [] && m.future[0].No? && IsRecorded(s) {
        GoodExplains(v.w, st.flow, v.fixed, m.past);
        assert FlowAt(s.id, st.flow) in out.marks;
      } else if m.future != [] && !m.future[0].Raise? {
        LiveSound(s, ctx, s0, v, loose, labels, Tick(m));
      }
    }
  }

  lemma GrowsLive(s: Stmt, ctx: Context, st: State)
    requires Valid(st)
    ensures Earlier(st, BindLive(s, ctx, st))
  {
    LiveGrows(s, ctx, st);
    GrowsEarlier(Targets(ctx), st, BindLive(s, ctx, st));
  }

  lemma {:induction false} LiveSound(s: Stmt, ctx: Context, st: State, v: View, loose: bool, labels: set<string>,
                                     m: Machine)
    requires !s.Function? && Enters(v, ctx, loose, st, BindLive(s, ctx, st), m.past)
    requires labels == WrappingNames(ctx) && (v.w.precise ==> Simple(s, v.exceptionTarget.Some?, labels))
    ensures Settled(v, ctx, loose, BindLive(s, ctx, st), ExecLive(s, labels, m))
    decreases |m.future|, s, 3
  {
    hide Good, Into, Extends, Covered, Valid, Fits, Explains, BindBlock, BindSwitch, BindTry, ExecWhile, ExecDo,
         ExecFor, ExecForOf, ExecSwitch, ExecTry, ExecSeq, Settled, Eval, EvalOptional, BindExpr;
    var out := BindLive(s, ctx, st);
    match s
    case Empty(_) => SettledCompleted(v, ctx, loose, out, m);
    case Block(_, ss) =>
      FitsInner(v, ctx, loose, st.graph);
      BlockSound(ss, Inner(ctx), st, v, loose, m);
      SettledInner(v, ctx, loose, out, ExecSeq(ss, m));
    case Var(_, _, _) => VarSound(s, ctx, st, v, loose, labels, m);
    case ExprStmt(_, _) => ExprStmtSound(s, ctx, st, v, loose, labels, m);
    case If(_, _, _, _) => IfSound(s, ctx, st, v, loose, labels, m);
    case While(_, _, _) => WhileSound(s, ctx, st, v, loose, labels, m);
    case Do(_, _, _) => DoSound(s, ctx, st, v, loose, labels, m);
    case For(_, _, _, _, _) => ForSound(s, ctx, st, v, loose, labels, m);
    case ForOf(_, _, _, _) => ForOfSound(s, ctx, st, v, loose, labels, m);
    case Break(_, d) =>
      JumpSound(v, ctx, loose, st, BreakTarget(ctx, d), m);
      SettledBroke(v, ctx, loose, out, d, m);
    case Continue(_, d) =>
      JumpSound(v, ctx, loose, st, ContinueTarget(ctx, d), m);
      SettledContinued(v, ctx, loose, out, d, m);
    case Return(_, _) => ReturnSound(s, ctx, st, v, loose, labels, m);
    case Throw(_, _) => ThrowSound(s, ctx, st, v, loose, labels, m);
    case Switch(_, _, _) => SwitchSound(s, ctx, st, v, loose, labels, m);
    case Labeled(_, _, _) => LabeledSound(s, ctx, st, v, loose, labels, m);
    case Try(_, _, _, _) =>
      FitsInner(v, ctx, loose, st.graph);
      TrySimple(s, v, labels);
      TrySound(s, Inner(ctx), st, v, loose, m);
      SettledInner(v, ctx, loose, out, ExecTry(s, m));
  }

  lemma TrySimple(s: Stmt, v: View, labels: set<string>)
    requires s.Try? && (v.w.precise ==> Simple(s, v.exceptionTarget.Some?, labels))
    ensures v.w.precise ==> Simple(s, v.exceptionTarget.Some?, {})
  {
  }

  lemma SettledBroke(v: View, ctx: Context, loose: bool, out: State, d: Option<string>, m: Machine)
    requires Jumped(v, out.graph, BreakTarget(ctx, d), m.past) && Covered(v, m.past)
    ensures Settled(v, ctx, loose, out, Run(Broke(d), m))
  {
  }

  lemma SettledContinued(v: View, ctx: Context, loose: bool, out: State, d: Option<string>, m: Machine)
    requires Jumped(v, out.graph, ContinueTarget(ctx, d), m.past) && Covered(v, m.past)
    ensures Settled(v, ctx, loose, out, Run(Continued(d), m))
  {
  }

  lemma JumpSound(v: View, ctx: Context, loose: bool, st: State, target: Option<FlowId>, m: Machine)
    requires Enters(v, ctx, loose, st, Jump(st, target), m.past)
    requires exists d :: target == BreakTarget(ctx, d) || target == ContinueTarget(ctx, d)
    ensures Jumped(v, Jump(st, target).graph, target, m.past)
  {
    hide Good, Into, Extends, Covered, AddAntecedent, BreakTarget, ContinueTarget;
    if target.Some? {
      TargetIsJoin(v, ctx, loose, st.graph, target);
      JoinEarlier(st, target.value);
      ExtendsTrans(st.graph, Join(st, target.value).graph, v.settled);
      ExtendsTrans(st.graph, v.settled, v.w.graph);
      IntoAdded(v.w, st.graph, target.value, st.flow, v.fixed, m.past);
    }
  }

  lemma {:induction false} FoundIn(labels: seq<ActiveLabel>, name: string)
    ensures FindActiveLabel(labels, name).Some? ==> FindActiveLabel(labels, name).value in labels
  {
    if labels != [] {
      FoundIn(labels[1..], name);
    }
  }

  lemma TargetIsJoin(v: View, ctx: Context, loose: bool, g: Graph, target: Option<FlowId>)
    requires Fits(v, ctx, loose, g) && target.Some?
    requires exists d :: target == BreakTarget(ctx, d) || target == ContinueTarget(ctx, d)
    ensures IsJoin(g, target.value)
  {
    var d :| target == BreakTarget(ctx, d) || target == ContinueTarget(ctx, d);
    if d.Some? {
      FoundIn(ctx.labels, d.value);
    }
  }

  lemma VarSound(s: Stmt, ctx: Context, st: State, v: View, loose: bool, labels: set<string>, m: Machine)
    requires s.Var? && Enters(v, ctx, loose, st, BindLive(s, ctx, st), m.past)
    ensures Settled(v, ctx, loose, BindLive(s, ctx, st), ExecLive(s, labels, m))
  {
    hide Good, Into, Extends, Covered, Valid, Explains, BindOptional, EvalOptional, Mutate, Settled, ContextLabels,
         ExceptionLabel;
    var out := BindLive(s, ctx, st);
    var exc := ctx.exceptionTarget;
    var s1 := BindOptional(s.initializer, exc, st);
    OptionalEarlier(s.initializer, exc, st);
    MutateEarlier(s1, exc, s.target);
    EarlierRefl(s1);
    EarlierRefl(st);
    ReadyPart(v, ctx, loose, st, out, st, s1, m.past);
    OptionalSound(s.initializer, st, v, m);
    var a := EvalOptional(s.initializer, m);
    if !a.outcome.Value? {
      SettledAbrupt(v, ctx, loose, out, a);
    } else if s.initializer.Some? {
      ExceptionLabelKept(st.graph, s1.graph, exc);
      MutateSound(v, s1, a.machine.past, s.target);
      SettledCompleted(v, ctx, loose, out, Emit(a.machine, Assigned(s.target)));
    } else {
      SettledCompleted(v, ctx, loose, out, a.machine);
    }
  }

  lemma ExprStmtSound(s: Stmt, ctx: Context, st: State, v: View, loose: bool, labels: set<string>, m: Machine)
    requires s.ExprStmt? && Enters(v, ctx, loose, st, BindLive(s, ctx, st), m.past)
    ensures Settled(v, ctx, loose, BindLive(s, ctx, st), ExecLive(s, labels, m))
  {
    hide Good, Into, Extends, Covered, Valid, Explains, BindExpr, Eval, Settled, ContextLabels, ExceptionLabel;
    var out := BindLive(s, ctx, st);
    var s1 := BindExpr(s.expr, AsValue, ctx.exceptionTarget, st);
    ExprEarlier(s.expr, AsValue, ctx.exceptionTarget, st);
    AppendEarlier(s1, CallEffect(s1, s.expr), [AssertionCall(s.expr, s1.flow)]);
    EarlierRefl(s1);
    EarlierRefl(st);
    ReadyPart(v, ctx, loose, st, out, st, s1, m.past);
    ValueSound(s.expr, st, v, m);
    var a := Eval(s.expr, m);
    if a.outcome.Value? {
      if s.expr.Call? {
        ExtendsTrans(out.graph, v.settled, v.w.graph);
        NodeKept(out.graph, v.w.graph, |s1.graph|);
        GoodPass(v.w, |s1.graph|, s1.flow, v.fixed, a.machine.past);
      }
      SettledCompleted(v, ctx, loose, out, a.machine);
    } else {
      SettledAbrupt(v, ctx, loose, out, a);
    }
  }

  lemma ThrowSound(s: Stmt, ctx: Context, st: State, v: View, loose: bool, labels: set<string>, m: Machine)
    requires s.Throw? && Enters(v, ctx, loose, st, BindLive(s, ctx, st), m.past)
    ensures Settled(v, ctx, loose, BindLive(s, ctx, st), ExecLive(s, labels, m))
  {
    hide Good, Into, Extends, Covered, Valid, Explains, BindExpr, Eval, Settled, ContextLabels, ExceptionLabel;
    var out := BindLive(s, ctx, st);
    var s1 := BindExpr(s.expr, AsValue, ctx.exceptionTarget, st);
    ExprEarlier(s.expr, AsValue, ctx.exceptionTarget, st);
    assert Valid(out) by { UnreachableValid(s1); TerminateValid(s1); }
    ExtendsRefl(s1.graph);
    EarlierRefl(st);
    ReadyPart(v, ctx, loose, st, out, st, s1, m.past);
    ValueSound(s.expr, st, v, m);
    var a := Eval(s.expr, m);
    if a.outcome.Value? {
      SettledFailed(v, ctx, loose, out, Run(Raised, a.machine));
    } else {
      SettledAbrupt(v, ctx, loose, out, a);
    }
  }

  lemma TerminateValid(st: State)
    requires Valid(st)
    ensures Valid(Terminate(st)) && Valid(Terminate(st).(explicitReturn := true))
  {
  }

  lemma ReturnSound(s: Stmt, ctx: Context, st: State, v: View, loose: bool, labels: set<string>, m: Machine)
    requires s.Return? && Enters(v, ctx, loose, st, BindLive(s, ctx, st), m.past)
    ensures Settled(v, ctx, loose, BindLive(s, ctx, st), ExecLive(s, labels, m))
  {
    hide Good, Into, Extends, Covered, Valid, Explains, BindOptional, EvalOptional, AddAntecedent, Settled,
         ExceptionLabel;
    var out := BindLive(s, ctx, st);
    var s1 := BindOptional(s.result, ctx.exceptionTarget, st);
    OptionalEarlier(s.result, ctx.exceptionTarget, st);
    var s2 := if ctx.returnTarget.Some? then Join(s1, ctx.returnTarget.value) else s1;
    if ctx.returnTarget.Some? {
      JoinEarlier(s1, ctx.returnTarget.value);
    } else {
      EarlierRefl(s1);
    }
    TerminateValid(s2);
    assert Earlier(s1, out);
    EarlierRefl(st);
    ReadyPart(v, ctx, loose, st, out, st, s1, m.past);
    OptionalSound(s.result, st, v, m);
    var a := EvalOptional(s.result, m);
    if a.outcome.Value? {
      if ctx.returnTarget.Some? {
        JoinKept(st.graph, s1.graph, ctx.returnTarget.value);
        FlowInRange(s1);
        IntoAdded(v.w, s1.graph, ctx.returnTarget.value, s1.flow, v.fixed, a.machine.past);
        IntoReturned(v, s2.graph, ctx.returnTarget, loose, a.machine.past);
      }
      SettledReturned(v, ctx, loose, out, a.machine);
    } else {
      SettledAbrupt(v, ctx, loose, out, a);
    }
  }

  lemma SettledReturned(v: View, ctx: Context, loose: bool, out: State, m: Machine)
    requires ReturnedInto(v, out.graph, ctx.returnTarget, loose, m.past) && Covered(v, m.past)
    ensures Settled(v, ctx, loose, out, Run(Returned, m))
  {
  }
}
