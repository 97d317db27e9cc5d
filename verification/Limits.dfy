/** Where the flow graph is precise: the programs whose runs it accounts for assignment by assignment. */
module Limits {
  import opened Wrappers
  import opened Syntax
  import opened Execution
  import opened Walks

  // ----- jumps that leave a statement -----

  datatype Escape = BreakTo(destination: Option<string>) | ContinueTo(destination: Option<string>)

  predicate LoopCatches(j: Escape, labels: set<string>) {
    j.destination.None? || (j.ContinueTo? && j.destination.value in labels)
  }

  /** The jumps in `s` whose target is outside it; `labels` directly wrap `s`. */
  function Escapes(s: Stmt, labels: set<string>): set<Escape> {
    match s
    case Block(_, ss) => EscapesSeq(ss)
    case If(_, _, a, b) => Escapes(a, {}) + (if b.Some? then Escapes(b.value, {}) else {})
    case While(_, _, body) => set j | j in Escapes(body, {}) && !LoopCatches(j, labels)
    case Do(_, body, _) => set j | j in Escapes(body, {}) && !LoopCatches(j, labels)
    case For(_, _, _, _, body) => set j | j in Escapes(body, {}) && !LoopCatches(j, labels)
    case ForOf(_, _, _, body) => set j | j in Escapes(body, {}) && !LoopCatches(j, labels)
    case Break(_, d) => {BreakTo(d)}
    case Continue(_, d) => {ContinueTo(d)}
    case Switch(_, _, clauses) => EscapesClauses(clauses) - {BreakTo(None)}
    case Labeled(_, name, body) => Escapes(body, labels + {name}) - {BreakTo(Some(name)), ContinueTo(Some(name))}
    case Try(_, b, h, f) =>
      EscapesSeq(b)
      + (if h.SomeBlock? then EscapesSeq(h.statements) else {})
      + (if f.SomeBlock? then EscapesSeq(f.statements) else {})
    case _ => {}
  }

  function EscapesSeq(ss: seq<Stmt>): set<Escape> {
    if ss == [] then {} else Escapes(ss[0], {}) + EscapesSeq(ss[1..])
  }

  function EscapesClauses(clauses: seq<Clause>): set<Escape> {
    if clauses == [] then {} else EscapesSeq(clauses[0].body) + EscapesClauses(clauses[1..])
  }

  ghost predicate Within(outcome: Outcome, jumps: set<Escape>) {
    && (outcome.Broke? ==> BreakTo(outcome.destination) in jumps)
    && (outcome.Continued? ==> ContinueTo(outcome.destination) in jumps)
  }

  /** No run leaves a statement by a jump that the statement does not contain. */
  lemma {:induction false} ExecWithin(s: Stmt, labels: set<string>, m: Machine)
    ensures Within(Exec(s, labels, m).outcome, Escapes(s, labels))
    decreases |m.future|, s
  {
    if m.future != [] && !m.future[0].Raise? && !(m.future[0].No? && IsRecorded(s)) {
      LiveWithin(s, labels, Tick(m));
    }
  }

  lemma {:induction false} LiveWithin(s: Stmt, labels: set<string>, m: Machine)
    ensures Within(ExecLive(s, labels, m).outcome, Escapes(s, labels))
    decreases |m.future|, s, 2
  {
    hide Eval, EvalOptional, SelectClause;
    match s
    case Block(_, ss) => SeqWithin(ss, m);
    case If(_, c, a, b) =>
      var r := Eval(c, m);
      if r.outcome.Value? {
        if r.outcome.truthy {
          ExecWithin(a, {}, r.machine);
        } else if b.Some? {
          ExecWithin(b.value, {}, r.machine);
        }
      }
    case While(_, _, _) => WhileWithin(s, labels, m);
    case Do(_, _, _) => DoWithin(s, labels, m);
    case For(_, init, _, _, _) =>
      var a := EvalOptional(init, m);
      if a.outcome.Value? {
        ForWithin(s, labels, a.machine);
      }
    case ForOf(_, _, e, _) =>
      var a := Eval(e, m);
      if a.outcome.Value? {
        ForOfWithin(s, labels, a.machine);
      }
    case Switch(_, e, _) =>
      var a := Eval(e, m);
      if a.outcome.Value? {
        SwitchWithin(s, a.machine);
      }
    case Labeled(_, name, body) => ExecWithin(body, labels + {name}, m);
    case Try(_, _, _, _) => TryWithin(s, m);
    case _ =>
  }

  lemma {:induction false} SeqWithin(ss: seq<Stmt>, m: Machine)
    ensures Within(ExecSeq(ss, m).outcome, EscapesSeq(ss))
    decreases |m.future|, ss
  {
    if ss != [] {
      ExecWithin(ss[0], {}, m);
      var r := Exec(ss[0], {}, m);
      if r.outcome.Completed? {
        SeqWithin(ss[1..], r.machine);
      }
    }
  }

  lemma {:induction false} WhileWithin(s: Stmt, labels: set<string>, m: Machine)
    requires s.While?
    ensures Within(ExecWhile(s, labels, m).outcome, Escapes(s, labels))
    decreases |m.future|, s, 1
  {
    hide Eval;
    var c := Eval(s.cond, m);
    if c.outcome.Value? && c.outcome.truthy {
      ExecWithin(s.body, {}, c.machine);
      var r := Exec(s.body, {}, c.machine);
      if GoesOn(r.outcome, labels) {
        WhileWithin(s, labels, r.machine);
      }
    }
  }

  lemma {:induction false} DoWithin(s: Stmt, labels: set<string>, m: Machine)
    requires s.Do?
    ensures Within(ExecDo(s, labels, m).outcome, Escapes(s, labels))
    decreases |m.future|, s, 1
  {
    hide Eval;
    ExecWithin(s.body, {}, m);
    var r := Exec(s.body, {}, m);
    if GoesOn(r.outcome, labels) {
      var c := Eval(s.cond, r.machine);
      if c.outcome.Value? && c.outcome.truthy {
        DoWithin(s, labels, c.machine);
      }
    }
  }

  lemma {:induction false} ForWithin(s: Stmt, labels: set<string>, m: Machine)
    requires s.For?
    ensures Within(ExecFor(s, labels, m).outcome, Escapes(s, labels))
    decreases |m.future|, s, 1
  {
    hide EvalOptional;
    var c := EvalOptional(s.test, m);
    if c.outcome.Value? && c.outcome.truthy {
      ExecWithin(s.body, {}, c.machine);
      var r := Exec(s.body, {}, c.machine);
      if GoesOn(r.outcome, labels) {
        var i := EvalOptional(s.incr, r.machine);
        if i.outcome.Value? {
          ForWithin(s, labels, i.machine);
        }
      }
    }
  }

  lemma {:induction false} ForOfWithin(s: Stmt, labels: set<string>, m: Machine)
    requires s.ForOf?
    ensures Within(ExecForOf(s, labels, m).outcome, Escapes(s, labels))
    decreases |m.future|, s, 1
  {
    if m.future != [] && m.future[0].Yes? {
      var m' := Emit(Tick(m), Assigned(s.target));
      ExecWithin(s.body, {}, m');
      var r := Exec(s.body, {}, m');
      if GoesOn(r.outcome, labels) {
        ForOfWithin(s, labels, r.machine);
      }
    }
  }

  lemma {:induction false} SwitchWithin(s: Stmt, m: Machine)
    requires s.Switch?
    ensures Within(ExecSwitch(s, m).outcome, Escapes(s, {}))
    decreases |m.future|, s, 0
  {
    hide SelectClause;
    var sel := SelectClause(s.clauses, 0, m);
    SelectionAbrupt(s.clauses, 0, m);
    if sel.selection.Chosen? {
      ClausesWithin(s.clauses, sel.selection.index, Emit(sel.machine, Selected(s.id, Some(sel.selection.index))));
    } else if sel.selection.NoMatch? && HasDefault(s.clauses) {
      var k := DefaultIndex(s.clauses);
      ClausesWithin(s.clauses, k, Emit(sel.machine, Selected(s.id, Some(k))));
    }
  }

  lemma {:induction false} SelectionAbrupt(clauses: seq<Clause>, i: nat, m: Machine)
    requires i <= |clauses|
    ensures var sel := SelectClause(clauses, i, m).selection;
            sel.Failed? ==> sel.run.outcome.Raised? || sel.run.outcome.Stopped?
    decreases |clauses| - i
  {
    if i < |clauses| {
      if clauses[i].test.None? {
        SelectionAbrupt(clauses, i + 1, m);
      } else {
        var t := Eval(clauses[i].test.value, m);
        if t.outcome.Value? && t.machine.future != [] {
          SelectionAbrupt(clauses, i + 1, Tick(t.machine));
        }
      }
    }
  }

  lemma {:induction false} ClausesWithin(clauses: seq<Clause>, k: nat, m: Machine)
    requires k <= |clauses|
    ensures Within(ExecClauses(clauses, k, m).outcome, EscapesClauses(clauses))
    decreases |m.future|, clauses, |clauses| - k
  {
    if k < |clauses| {
      SeqWithin(clauses[k].body, m);
      ClauseEscapes(clauses, k);
      var r := ExecSeq(clauses[k].body, m);
      if r.outcome.Completed? {
        ClausesWithin(clauses, k + 1, r.machine);
      }
    }
  }

  lemma {:induction false} ClauseEscapes(clauses: seq<Clause>, k: nat)
    requires k < |clauses|
    ensures EscapesSeq(clauses[k].body) <= EscapesClauses(clauses)
  {
    if k > 0 {
      ClauseEscapes(clauses[1..], k - 1);
    }
  }

  lemma {:induction false} TryWithin(s: Stmt, m: Machine)
    requires s.Try?
    ensures Within(ExecTry(s, m).outcome, Escapes(s, {}))
    decreases |m.future|, s, 1
  {
    GuardedWithin(s, m);
    var r := ExecGuarded(s, m);
    if s.finalizer.SomeBlock? {
      SeqWithin(s.finalizer.statements, r.machine);
    }
  }

  lemma {:induction false} GuardedWithin(s: Stmt, m: Machine)
    requires s.Try?
    ensures Within(ExecGuarded(s, m).outcome,
                   EscapesSeq(s.block) + (if s.handler.SomeBlock? then EscapesSeq(s.handler.statements) else {}))
    decreases |m.future|, s, 0
  {
    SeqWithin(s.block, m);
    var r := ExecSeq(s.block, m);
    if s.handler.SomeBlock? {
      SeqWithin(s.handler.statements, r.machine);
    }
  }

  // ----- expressions without assignments -----

  predicate AssignsNothing(e: Expr) {
    match e
    case Paren(x) => AssignsNothing(x)
    case Not(x) => AssignsNothing(x)
    case Logical(_, l, r) => AssignsNothing(l) && AssignsNothing(r)
    case LogicalAssign(_, _, _, _) => false
    case Assign(_, _, _) => false
    case Conditional(c, a, b) => AssignsNothing(c) && AssignsNothing(a) && AssignsNothing(b)
    case Binary(_, l, r) => AssignsNothing(l) && AssignsNothing(r)
    case Call(_, _, a) => AssignsNothing(a)
    case _ => true
  }

  predicate AssignsNothingIfAny(e: Option<Expr>) {
    e.Some? ==> AssignsNothing(e.value)
  }

  // ----- the programs -----

  /** Nothing the graph blurs: a `for` statement whose incrementor assigns is not continued, case tests
      assign nothing, no try statement is inside the try block or catch clause of another, and no break
      or continue leaves a try statement that has a finally block. */
  predicate Simple(s: Stmt, inTry: bool, labels: set<string>) {
    match s
    case Block(_, ss) => SimpleSeq(ss, inTry)
    case If(_, _, a, b) => Simple(a, inTry, {}) && (b.Some? ==> Simple(b.value, inTry, {}))
    case While(_, _, body) => Simple(body, inTry, {})
    case Do(_, body, _) => Simple(body, inTry, {})
    case For(_, _, _, incr, body) =>
      && (AssignsNothingIfAny(incr) || NotContinued(body, labels))
      && Simple(body, inTry, {})
    case ForOf(_, _, _, body) => Simple(body, inTry, {})
    case Switch(_, _, clauses) => SimpleClauses(clauses, inTry)
    case Labeled(_, name, body) => Simple(body, inTry, labels + {name})
    case Try(_, b, h, f) =>
      && !inTry
      && SimpleSeq(b, true)
      && (h.SomeBlock? ==> SimpleSeq(h.statements, true))
      && (f.SomeBlock? ==> SimpleSeq(f.statements, false))
      && (f.SomeBlock? ==> Escapes(s, {}) == {})
    case _ => true
  }

  predicate SimpleSeq(ss: seq<Stmt>, inTry: bool) {
    ss == [] || (Simple(ss[0], inTry, {}) && SimpleSeq(ss[1..], inTry))
  }

  predicate SimpleClauses(clauses: seq<Clause>, inTry: bool) {
    clauses == []
    || (&& AssignsNothingIfAny(clauses[0].test)
        && SimpleSeq(clauses[0].body, inTry)
        && SimpleClauses(clauses[1..], inTry))
  }

  predicate NotContinued(body: Stmt, labels: set<string>) {
    forall j :: j in Escapes(body, {}) ==> !(j.ContinueTo? && LoopCatches(j, labels))
  }
}
