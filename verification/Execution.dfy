/** What running a tree does: an interpreter driven by an arbitrary sequence of choices, one for every
    point where a run is free to differ. Any evaluation and any statement may raise an exception, and a
    run may be stopped to be looked at whenever it reaches a recorded statement. */
module Execution {
  import opened Wrappers
  import opened Syntax

  datatype Event =
    | Assigned(target: string)
    | Evaluated(expr: Expr, truthy: bool)
    | Selected(switchId: nat, clause: Option<nat>) // no clause: nothing matched and there is no default

  datatype Choice = Yes | No | Raise

  datatype Machine = Machine(past: seq<Event>, future: seq<Choice>)

  function Tick(m: Machine): Machine
    requires m.future != []
  {
    m.(future := m.future[1..])
  }

  function Emit(m: Machine, ev: Event): Machine {
    m.(past := m.past + [ev])
  }

  // ----- expressions -----

  /** `Cut` is a run that is out of choices. */
  datatype ExprOutcome = Value(truthy: bool) | Threw | Cut

  datatype ExprRun = ExprRun(outcome: ExprOutcome, machine: Machine)

  predicate Consumes(m: Machine, r: ExprRun) {
    && |r.machine.future| <= |m.future|
    && (r.outcome.Value? ==> |r.machine.future| < |m.future|)
  }

  /** The end of an evaluation: its truth value is `forced` by its operands or a free choice. */
  function Conclude(e: Expr, forced: Option<bool>, m: Machine): (r: ExprRun)
    ensures Consumes(m, r)
  {
    if m.future == [] then ExprRun(Cut, m)
    else if m.future[0].Raise? then ExprRun(Threw, Tick(m))
    else
      var truthy := if forced.Some? then forced.value else m.future[0].Yes?;
      ExprRun(Value(truthy), Emit(Tick(m), Evaluated(e, truthy)))
  }

  function Eval(e: Expr, m: Machine): (r: ExprRun)
    ensures Consumes(m, r)
    decreases e, 1
  {
    match e
    case Ident(_, _) => Conclude(e, None, m)
    case Opaque(_) => Conclude(e, None, m)
    case TrueLiteral => Conclude(e, Some(true), m)
    case FalseLiteral => Conclude(e, Some(false), m)
    case Paren(x) =>
      var a := Eval(x, m);
      if a.outcome.Value? then Conclude(e, Some(a.outcome.truthy), a.machine) else a
    case Not(x) =>
      var a := Eval(x, m);
      if a.outcome.Value? then Conclude(e, Some(!a.outcome.truthy), a.machine) else a
    case Logical(op, l, r) =>
      var a := Eval(l, m);
      if !a.outcome.Value? then a
      else if Decides(op, a.outcome.truthy) then Conclude(e, Some(a.outcome.truthy), a.machine)
      else
        var b := Eval(r, a.machine);
        if b.outcome.Value? then Conclude(e, Some(b.outcome.truthy), b.machine) else b
    case LogicalAssign(op, _, _, _) =>
      var a := Conclude(Target(e), None, m);
      if !a.outcome.Value? then a
      else if Decides(op, a.outcome.truthy) then Conclude(e, Some(a.outcome.truthy), a.machine)
      else EvalAssigned(e, a.machine)
    case Assign(_, _, _) => EvalAssigned(e, m)
    case Conditional(c, a, b) =>
      var r := Eval(c, m);
      if !r.outcome.Value? then r
      else
        var v := Eval(if r.outcome.truthy then a else b, r.machine);
        if v.outcome.Value? then Conclude(e, Some(v.outcome.truthy), v.machine) else v
    case Binary(op, l, r) =>
      var a := Eval(l, m);
      if !a.outcome.Value? then a
      else
        var b := Eval(r, a.machine);
        if !b.outcome.Value? then b
        else Conclude(e, if op.Comma? then Some(b.outcome.truthy) else None, b.machine)
    case Call(_, _, x) =>
      var a := Eval(x, m);
      if a.outcome.Value? then Conclude(e, None, a.machine) else a
  }

  /** The right operand, and the assignment. */
  function EvalAssigned(e: Expr, m: Machine): (r: ExprRun)
    requires e.Assign? || e.LogicalAssign?
    ensures Consumes(m, r)
    decreases e, 0
  {
    var a := Eval(e.right, m);
    if a.outcome.Value? then Conclude(e, Some(a.outcome.truthy), Emit(a.machine, Assigned(e.target))) else a
  }

  /** An absent expression stands for one that is true and does nothing. */
  function EvalOptional(e: Option<Expr>, m: Machine): (r: ExprRun)
    ensures |r.machine.future| <= |m.future|
  {
    match e
    case None => ExprRun(Value(true), m)
    case Some(x) => Eval(x, m)
  }

  // ----- statements -----

  datatype Outcome =
    | Completed
    | Broke(destination: Option<string>)
    | Continued(destination: Option<string>)
    | Returned
    | Raised
    | Reached(id: nat) // stopped at a recorded statement, about to run it
    | Stopped          // out of choices, or a jump that no program may contain

  datatype Run = Run(outcome: Outcome, machine: Machine)

  function Abrupt(r: ExprRun): Run
    requires !r.outcome.Value?
  {
    Run(if r.outcome.Threw? then Raised else Stopped, r.machine)
  }

  function Finished(r: ExprRun, outcome: Outcome): Run {
    if r.outcome.Value? then Run(outcome, r.machine) else Abrupt(r)
  }

  /** Whether a loop with the given labels goes on after its body ended this way. */
  predicate GoesOn(outcome: Outcome, labels: set<string>) {
    || outcome.Completed?
    || (outcome.Continued? && (outcome.destination.None? || outcome.destination.value in labels))
  }

  function LeaveLoop(r: Run): Run {
    if r.outcome == Broke(None) then Run(Completed, r.machine) else r
  }

  function Exec(s: Stmt, labels: set<string>, m: Machine): (r: Run)
    ensures |r.machine.future| <= |m.future|
    ensures r.outcome.Stopped? || |r.machine.future| < |m.future|
    decreases |m.future|, s
  {
    if m.future == [] then Run(Stopped, m)
    else if m.future[0].Raise? then Run(Raised, Tick(m))
    else if m.future[0].No? && IsRecorded(s) then Run(Reached(s.id), Tick(m))
    else ExecLive(s, labels, Tick(m))
  }

  function ExecLive(s: Stmt, labels: set<string>, m: Machine): (r: Run)
    ensures |r.machine.future| <= |m.future|
    decreases |m.future|, s, 2
  {
    match s
    case Empty(_) => Run(Completed, m)
    case Block(_, ss) => ExecSeq(ss, m)
    case Var(_, x, init) =>
      var a := EvalOptional(init, m);
      if init.Some? && a.outcome.Value? then Run(Completed, Emit(a.machine, Assigned(x)))
      else Finished(a, Completed)
    case ExprStmt(_, e) => Finished(Eval(e, m), Completed)
    case If(_, c, a, b) =>
      var r := Eval(c, m);
      if !r.outcome.Value? then Abrupt(r)
      else if r.outcome.truthy then Exec(a, {}, r.machine)
      else if b.Some? then Exec(b.value, {}, r.machine)
      else Run(Completed, r.machine)
    case While(_, _, _) => ExecWhile(s, labels, m)
    case Do(_, _, _) => ExecDo(s, labels, m)
    case For(_, init, _, _, _) =>
      var a := EvalOptional(init, m);
      if a.outcome.Value? then ExecFor(s, labels, a.machine) else Abrupt(a)
    case ForOf(_, _, e, _) =>
      var a := Eval(e, m);
      if a.outcome.Value? then ExecForOf(s, labels, a.machine) else Abrupt(a)
    case Break(_, d) => Run(Broke(d), m)
    case Continue(_, d) => Run(Continued(d), m)
    case Return(_, e) => Finished(EvalOptional(e, m), Returned)
    case Throw(_, e) => Finished(Eval(e, m), Raised)
    case Switch(_, e, clauses) =>
      var a := Eval(e, m);
      if a.outcome.Value? then ExecSwitch(s, a.machine) else Abrupt(a)
    case Labeled(_, name, body) =>
      var r := Exec(body, labels + {name}, m);
      if r.outcome == Broke(Some(name)) then Run(Completed, r.machine)
      else if r.outcome == Continued(Some(name)) then Run(Stopped, r.machine)
      else r
    case Try(_, _, _, _) => ExecTry(s, m)
    case Function(_, _, _) => Run(Completed, m)
  }

  function ExecSeq(ss: seq<Stmt>, m: Machine): (r: Run)
    ensures |r.machine.future| <= |m.future|
    decreases |m.future|, ss
  {
    if ss == [] then Run(Completed, m)
    else
      var r := Exec(ss[0], {}, m);
      if r.outcome.Completed? then ExecSeq(ss[1..], r.machine) else r
  }

  // ----- loops, from the point where an iteration begins -----

  function ExecWhile(s: Stmt, labels: set<string>, m: Machine): (r: Run)
    requires s.While?
    ensures |r.machine.future| <= |m.future|
    decreases |m.future|, s, 1
  {
    var c := Eval(s.cond, m);
    if !c.outcome.Value? then Abrupt(c)
    else if !c.outcome.truthy then Run(Completed, c.machine)
    else
      var r := Exec(s.body, {}, c.machine);
      if GoesOn(r.outcome, labels) then ExecWhile(s, labels, r.machine) else LeaveLoop(r)
  }

  function ExecDo(s: Stmt, labels: set<string>, m: Machine): (r: Run)
    requires s.Do?
    ensures |r.machine.future| <= |m.future|
    decreases |m.future|, s, 1
  {
    var r := Exec(s.body, {}, m);
    if !GoesOn(r.outcome, labels) then LeaveLoop(r)
    else
      var c := Eval(s.cond, r.machine);
      if !c.outcome.Value? then Abrupt(c)
      else if c.outcome.truthy then ExecDo(s, labels, c.machine)
      else Run(Completed, c.machine)
  }

  function ExecFor(s: Stmt, labels: set<string>, m: Machine): (r: Run)
    requires s.For?
    ensures |r.machine.future| <= |m.future|
    decreases |m.future|, s, 1
  {
    var c := EvalOptional(s.test, m);
    if !c.outcome.Value? then Abrupt(c)
    else if !c.outcome.truthy then Run(Completed, c.machine)
    else
      var r := Exec(s.body, {}, c.machine);
      if !GoesOn(r.outcome, labels) then LeaveLoop(r)
      else
        var i := EvalOptional(s.incr, r.machine);
        if i.outcome.Value? then ExecFor(s, labels, i.machine) else Abrupt(i)
  }

  /** The iterator decides whether there is a next element. */
  function ExecForOf(s: Stmt, labels: set<string>, m: Machine): (r: Run)
    requires s.ForOf?
    ensures |r.machine.future| <= |m.future|
    decreases |m.future|, s, 1
  {
    if m.future == [] then Run(Stopped, m)
    else if m.future[0].Raise? then Run(Raised, Tick(m))
    else if m.future[0].No? then Run(Completed, Tick(m))
    else
      var r := Exec(s.body, {}, Emit(Tick(m), Assigned(s.target)));
      if GoesOn(r.outcome, labels) then ExecForOf(s, labels, r.machine) else LeaveLoop(r)
  }

  // ----- switch -----

  datatype Selection = Chosen(index: nat) | NoMatch | Failed(run: Run)

  datatype SelectRun = SelectRun(selection: Selection, machine: Machine)

  /** The tests are evaluated in order, default clauses apart, until one matches. */
  function SelectClause(clauses: seq<Clause>, i: nat, m: Machine): (r: SelectRun)
    requires i <= |clauses|
    ensures |r.machine.future| <= |m.future|
    ensures r.selection.Chosen? ==> r.selection.index < |clauses|
    ensures r.selection.Failed? ==> r.selection.run.machine == r.machine
    decreases |clauses| - i
  {
    if i == |clauses| then SelectRun(NoMatch, m)
    else if clauses[i].test.None? then SelectClause(clauses, i + 1, m)
    else
      var t := Eval(clauses[i].test.value, m);
      if !t.outcome.Value? then SelectRun(Failed(Abrupt(t)), t.machine)
      else if t.machine.future == [] then SelectRun(Failed(Run(Stopped, t.machine)), t.machine)
      else
        var c := t.machine.future[0];
        if c.Raise? then SelectRun(Failed(Run(Raised, Tick(t.machine))), Tick(t.machine))
        else if c.Yes? then SelectRun(Chosen(i), Tick(t.machine))
        else SelectClause(clauses, i + 1, Tick(t.machine))
  }

  function DefaultIndex(clauses: seq<Clause>): (r: nat)
    requires HasDefault(clauses)
    ensures r < |clauses| && clauses[r].test.None?
  {
    if clauses[0].test.None? then 0
    else
      assert HasDefault(clauses[1..]) by {
        var c :| c in clauses && c.test.None?;
        assert c in clauses[1..];
      }
      1 + DefaultIndex(clauses[1..])
  }

  function ExecSwitch(s: Stmt, m: Machine): (r: Run)
    requires s.Switch?
    ensures |r.machine.future| <= |m.future|
    decreases |m.future|, s, 0
  {
    var sel := SelectClause(s.clauses, 0, m);
    match sel.selection
    case Failed(r) => r
    case Chosen(k) => LeaveLoop(ExecClauses(s.clauses, k, Emit(sel.machine, Selected(s.id, Some(k)))))
    case NoMatch =>
      if HasDefault(s.clauses) then
        var k := DefaultIndex(s.clauses);
        LeaveLoop(ExecClauses(s.clauses, k, Emit(sel.machine, Selected(s.id, Some(k)))))
      else Run(Completed, Emit(sel.machine, Selected(s.id, None)))
  }

  /** The statements of clause `k` and, falling through, of those after it. */
  function ExecClauses(clauses: seq<Clause>, k: nat, m: Machine): (r: Run)
    requires k <= |clauses|
    ensures |r.machine.future| <= |m.future|
    decreases |m.future|, clauses, |clauses| - k
  {
    if k == |clauses| then Run(Completed, m)
    else
      var r := ExecSeq(clauses[k].body, m);
      if r.outcome.Completed? then ExecClauses(clauses, k + 1, r.machine) else r
  }

  // ----- try -----

  function ExecGuarded(s: Stmt, m: Machine): (r: Run)
    requires s.Try?
    ensures |r.machine.future| <= |m.future|
    decreases |m.future|, s, 0
  {
    var r := ExecSeq(s.block, m);
    if r.outcome.Raised? && s.handler.SomeBlock? then ExecSeq(s.handler.statements, r.machine) else r
  }

  /** The finally block runs whatever happened before it, and what happened takes effect after it. */
  function ExecTry(s: Stmt, m: Machine): (r: Run)
    requires s.Try?
    ensures |r.machine.future| <= |m.future|
    decreases |m.future|, s, 1
  {
    var r := ExecGuarded(s, m);
    if s.finalizer.NoBlock? || r.outcome.Reached? || r.outcome.Stopped? then r
    else
      var f := ExecSeq(s.finalizer.statements, r.machine);
      if f.outcome.Completed? then Run(r.outcome, f.machine) else f
  }
}
