# Verified models of the binder and of what it relies on

The binder of this TypeScript compiler walks a syntax tree once. On the way it builds the control-flow graph
that narrowing and reachability rest on, declares symbols, and asks whether namespaces are instantiated. This
project models that walk and the structures around it and proves what they promise.

`dafny verify dfyconfig.toml` verifies everything. Where the source works by updating fields, the model is a
class whose methods are proved against functions; the theorems are lemmas about those functions.

## The flow graph

| file | what it holds |
|---|---|
| `Syntax.dfy` | the expressions and statements that the flow builder looks at, and its syntactic predicates |
| `FlowGraph.dfy` | flow nodes, linked backwards to their antecedents, in one arena |
| `FlowBuilder.dfy` | what binding a tree does to the graph, as functions over the builder state |
| `Binder.dfy` | class `Binder`, with the fields that the binder saves, overwrites and restores |
| `FlowGrowth.dfy` | binding only adds to the graph, and only labels in force gain antecedents |
| `Execution.dfy` | what running a tree does: an interpreter driven by an arbitrary sequence of choices |
| `Walks.dfy` | backward walks, and how the nodes on a walk account for what a run has done |
| `Limits.dfy` | the functions whose runs the graph accounts for assignment by assignment |
| `ExprSoundness.dfy`, `StmtSoundness.dfy` | one simulation for each construct of the language |
| `FlowTheorems.dfy` | the theorems |
| `FlowSeals.dfy` | completed labels never gain antecedents, so collapsing them loses and adds no walk |
| `FlowMarks.dfy`, `FlowReturns.dfy` | what binding records on the tree |
| `FlowRegions.dfy`, `FlowGuards.dfy`, `FlowEvidence.dfy` | what guards a statement is on every walk from it |
| `FlowGaps.dfy` | why the limits are needed |
| `FlowExactness.dfy`, `ExactnessGaps.dfy` | the converse: what the graph takes as reachable is reached, and where that ends |

An interpreter run takes its choices from a list: which way a condition goes, which clause matches, whether an
iterator has another element, and at every evaluation and every statement whether an exception is raised. A
run can also be stopped at any statement that has a flow recorded. Statements about all lists of choices are
therefore statements about all executions, of any length.

Each soundness lemma is proved once for two readings. In the coarse one a flow only has to be reachable; it
holds for every program. In the precise one there is a backward walk from the flow to the start of the
function whose assignment nodes are exactly the assignments of the run, in order, and whose condition and
switch-clause nodes are conditions and selections of the run. It holds for functions that are `Simple`: a
continued `for` statement has no assigning incrementor, case tests do not assign, no try statement is inside
the try block or catch clause of another, and no break or continue leaves a try statement that has a finally
block. `FlowGaps.dfy` shows for each of these four restrictions a function that only breaks this one and a run
of it that no walk accounts for. Walks go through reduce labels as the type checker does: the innermost reduction
passed decides the antecedents of a finally label.

Soundness alone would also hold of a graph in which everything is reachable. The converse is proved for a
`PlainFunction`: whatever has a flow recorded is reached by some run, and a body that has an implicit return can
complete. A function is plain for a node inside it if

- its conditions are `Open`: a boolean literal stands alone or is an operand of `&&` and `||`, not hidden under
  a negation, parentheses, a comma or a conditional expression;
- a try block with a catch clause is not empty, and no break or continue leaves a try statement that has a
  finally block;
- its jumps have targets and its switch statements at most one default clause, as in every program without
  syntax errors;
- the node is one of its own and does not belong to a function inside it. Inner functions may be anything.

For each of these `ExactnessGaps.dfy` shows a function that only breaks this one and a statement that has a
flow recorded and is reached by no run. What the compiler does there is cautious: it reports too little as
unreachable, never too much.

Neither direction says that a graph has any conditions in it: a walk may leave out what a run has evaluated.
That they are there is proved in `FlowEvidence.dfy`. Every part of a program has a single entry in the graph, so
every walk from a statement passes where the part around it began, and there the condition, the clauses or the
loop variable that guard it: `FlowEvidence.GuardsEvident` states this of all walks from all recorded flows, and
`Shows` says which condition nodes stand for a condition with logical operators. In the same way a walk that
passes a try statement with a finally block enters the parts before the block where it may.

The builder state remembers, as the class does in a ghost field, which labels were completed or had their
lists copied, with the antecedents they had at that moment. `FlowSeals.dfy` proves that they keep exactly these
while binding goes on.

`BinderClass.Binder.BindStatement` ties the class to the functions and states that binding leaves its context
as it found it. `BinderClass.BindFunction` states the coarse theorems, their converses and what walks show
about the class itself.

## The other models

| file | what it holds |
|---|---|
| `ModuleInstances.dfy` | the memoised search for what instantiates a namespace, against plain reachability |
| `SymbolFlags.dfy`, `Symbols.dfy` | merging and conflicts of declarations, as classes `Symbol` and `SymbolTable` |
| `Diagnostics.dfy`, `DiagnosticsCollection.dfy` | the order of diagnostics and the sorted collection |
| `TokenLookup.dfy` | the token at a position, and the cache of scanned tokens |
| `Visitor.dfy` | visiting slices with whatever a callback gives |
| `DeepClone.dfy` | visitors that share what does not change, the identity visit and the deep clone |
| `AtomicIds.dfy`, `SubtreeFacts.dfy` | lock-free ids and caches, over all interleavings of their steps |
| `Wire.dfy` | the MessagePack framing of the API server (MessagePack specification, bin format family) |
| `Shadow.dfy` | the reachability search of the shadowing lint |

## What is not as one might expect

- The states of a namespace are compared by number, and `ConstEnumOnly` is the greatest. An export list or a
  name with several declarations can therefore be answered `ConstEnumOnly` although something instantiates:
  `ModuleInstances.MixedExportState`. The answer `NonInstantiated` is exact; `Instantiated` is exact if no name
  that leads to a const enum stands before another that may be a value in an export list, and no statement
  hides another of the same name and block in this way.
- `GetDiagnostics` is sorted exactly if no diagnostic without a file comes after one of a file whose name is
  empty: both have the empty path, but stay in different buckets.
- `CompareDiagnostics` does not look at the codes inside message chains, `EqualDiagnostics` does: equality is
  comparing as equal and agreeing on those codes.
- `VisitSlice` leaves a syntax list that a visit returns unchanged in the slice as it is before the first
  change, and flattens it after; without syntax lists in the slice the result is the concatenation of the
  visits.
- A binary of 2^32 bytes or more is written with its length cut to 32 bits and is not read back.
- Among declared values, an assignment declaration takes the place of a namespace as the value declaration,
  so that only declarations that are neither are preferred for good.
- Ids are distinct for runs of fewer than 2^64 steps.

## Model

| member | source | states |
|---|---|---|
| FlowTheorems.TraceSoundness | internal/binder/binder.go:1783-1996 | if a run of a simple function reaches a statement, a flow recorded on it has a backward walk to the start of the function whose assignments are, in order, exactly those of the run, and whose conditions and switch clauses all held |
| FlowTheorems.CompletionSoundness | internal/binder/binder.go:1509-1520 | the same for a run that completes, at the recorded end of the function |
| FlowTheorems.ReturnSoundness | internal/binder/binder.go:1526-1532 | the same for a constructor at its return flow, also for a return that passes a finally block: through the reduced label, by the return antecedents only |
| FlowTheorems.ReachabilitySoundness | internal/binder/binder.go:1695-1730 | for every function, with exceptions anywhere, nested try statements and jumps through finally blocks: a statement that some run reaches has a flow recorded that is not unreachable |
| FlowTheorems.UnreachableMeansNoRun | internal/binder/binder.go:1695-1730 | a statement without a recorded flow is reached by no run |
| FlowTheorems.ImplicitReturn | internal/binder/binder.go:1509-1520 | a function body that some run completes has HasImplicitReturn |
| FlowSeals.SealedLabels | internal/binder/binder.go:563-578 | whatever functions are bound, and whatever is bound after them, every label that was completed or whose list was copied still has the antecedents it had at that moment |
| FlowSeals.SealedInside | internal/binder/binder.go:580-760 | the same after any statement, inside a function: no target in force is ever sealed, and no sealed label gains an antecedent |
| FlowSeals.ResumeSeals | internal/binder/binder.go:570-578 | the flow that goes on from a completed label is what the sealed label stands for: nothing, its one antecedent, or itself |
| FlowSeals.CollapseKeepsWalks | internal/binder/binder.go:570-578 | what a label collapsed to when it was completed has, in the finished graph, walks that account for exactly the runs that the label itself accounts for, under any reductions in force |
| FlowSeals.StmtIntact | internal/binder/binder.go:563-760 | binding any statement keeps all seals and seals no label that is still open around it |
| FlowSeals.GuardedIntact | internal/binder/binder.go:1998-2031 | after the guarded parts, the three labels whose lists a finally block copies are still open, and all seals hold |
| FlowTheorems.LabelKeepsWalks | internal/binder/binder.go:570-578 | a label and what it collapses to in the same graph account for the same runs |
| FlowTheorems.FinallyListExact | internal/binder/binder.go:2047-2048 | the label of a finally block is exactly normal ++ exception ++ return, of the lists as they still are when the whole try statement is bound |
| FlowTheorems.ConditionSoundness | internal/binder/binder.go:1803-1809 | from any flow that accounts for what has been done: a condition that evaluates to a truth value has a walk ending in an antecedent of the target for that value, and one that raises has one ending in an antecedent of the exception target, with the assignments in order and every condition passed having held |
| FlowTheorems.FunctionFollowed | internal/binder/binder.go:1436-1556 | soundness in both readings for one function, whatever was bound before it and is bound after it |
| FlowEvidence.GuardsEvident | internal/binder/binder.go:483-501 | when all functions of a program are bound: every backward walk from a flow recorded on a statement to the start of its function passes the condition nodes of every if statement and loop condition that guards it, with the right truth values and operand by operand through logical operators, the assignment of every for-of loop around it, and for every narrowing switch around it a clause node for exactly one group of its clauses, that of the clause with the statement or an earlier one |
| FlowEvidence.FunctionEvidence | internal/binder/binder.go:1783-1942 | the same for any function, inner ones included, as long as nothing bound later adds to its labels |
| FlowGuards.ConditionShows | internal/binder/binder.go:1803-1809 | every walk from an antecedent that a condition adds to its target for a truth value shows that value: the node of a narrowing condition, and of a logical expression both operands, or those that settle it |
| FlowGuards.AssignShows | internal/binder/binder.go:2262-2280 | for logical assignments: the target settles the value, or the node of the assigned value shows it |
| FlowGuards.PassesEntry | internal/binder/binder.go:580-760 | single entry: a walk from anything that was made while a part was bound passes the flow that the part started from, with the reductions in force around the part unchanged |
| FlowEvidence.IfEvidence | internal/binder/binder.go:1929-1942 | the then branch shows that the condition was true, the else branch that it was false |
| FlowEvidence.WhileEvidence | internal/binder/binder.go:1861-1874 | the body of a while statement shows that the condition was true |
| FlowEvidence.ForEvidence | internal/binder/binder.go:1891-1906 | the same for the condition of a for statement, if it has one |
| FlowEvidence.ForOfEvidence | internal/binder/binder.go:1908-1927 | the body of a for-of statement shows the assignment of its variable |
| FlowEvidence.ClausesEvidence | internal/binder/binder.go:2100-2129 | the statements of a clause are reached through a clause node for exactly the clauses of one group, also by falling through from an earlier group |
| FlowEvidence.GroupShows | internal/binder/binder.go:2110-2121 | a walk from inside a group passes the node of exactly this group, whose clauses share their statements, or falls in from an earlier group that shows the same |
| FlowEvidence.NoClauseShown | internal/binder/binder.go:2092-2094 | past a switch statement without a break or the end of the last clause: only without a default clause, and the walk shows that no clause was chosen |
| FlowEvidence.TryPast | internal/binder/binder.go:2064-2070 | past a try statement a walk goes back through its finally block and leaves its start to the end of the try block or of the catch clause |
| FlowEvidence.TryLeft | internal/binder/binder.go:2054-2063 | from what leaving a finally block adds to the return or exception target a walk goes back through the block and leaves its start to an antecedent of the return or exception label of the parts before it |
| FlowEvidence.CallRecorded | internal/binder/binder.go:2142-2156 | what follows a call statement is reached through the node of the call |
| FlowEvidence.WithoutAssignments | internal/binder/binder.go:2290-2313 | an expression that assigns nothing leaves the flow as it was, whatever conditions are inside it |
| FlowRegions.StmtEnclosed | internal/binder/binder.go:1559-1658 | whatever is made while a statement is bound leads back to the flow the statement started from and to nothing else outside it, and only reduces finally labels of its own |
| FlowReturns.ExplicitReturnMeaning | internal/binder/binder.go:1509-1518 | a function has HasExplicitReturn exactly if its end is reachable and a flow is recorded on one of its return statements |
| FlowReturns.ExplicitReturnExact | internal/binder/binder.go:1944-1952 | for a plain function: exactly if some run completes and some run reaches one of its return statements |
| FlowGaps.ContinuedFor | internal/binder/binder.go:1891-1906 | a `for` statement that is continued and whose incrementor assigns, and a run of it that no walk accounts for |
| FlowGaps.AssigningTest | internal/binder/binder.go:2131-2138 | the same for an assignment in a case test, whose flow is dropped |
| FlowGaps.JumpingTry | internal/binder/binder.go:2031-2062 | the same for a break out of a try statement with a finally block |
| FlowGaps.NestedTry | internal/binder/binder.go:2015-2029 | the same for a try statement inside the try block of another |
| FlowExactness.ReachabilityExact | internal/binder/binder.go:1559-1567 | a flow is recorded on a statement of a plain function if and only if some run of the function reaches the statement, whatever functions are inside it |
| FlowExactness.ImplicitReturnExact | internal/binder/binder.go:1509-1520 | a plain function has HasImplicitReturn if and only if some run of its body completes |
| FlowExactness.StmtExact | internal/binder/binder.go:1559-1658 | binding a plain statement adds to a jump target only if some run of the statement jumps there, records a flow only on what some run reaches, and leaves the flow reachable only if some run completes |
| FlowExactness.ConditionExact | internal/binder/binder.go:1803-1809 | the target of a condition gains an antecedent only if some evaluation has that truth value |
| FlowExactness.LogicalExact | internal/binder/binder.go:2262-2280 | the same through short-circuiting: the right operand counts only if the left one can leave it to be evaluated |
| FlowExactness.WhileExact | internal/binder/binder.go:1861-1874 | `StmtExact` for while statements: without a break, what comes after is reachable only if the condition can be false |
| FlowExactness.DoExact | internal/binder/binder.go:1876-1889 | for do statements, whose condition is reached by completing or continuing only |
| FlowExactness.ForExact | internal/binder/binder.go:1891-1906 | for `for` statements, also without a condition |
| FlowExactness.LabeledExact | internal/binder/binder.go:2158-2176 | for labelled statements: what comes after is reachable by a break to the label or by completing |
| FlowExactness.SwitchExact | internal/binder/binder.go:2079-2098 | for switch statements: what comes after is reachable by a break, by completing the last clause, or without a default clause |
| FlowExactness.ClausesExact | internal/binder/binder.go:2100-2129 | the clauses one after the other: every one can be selected, and falling through adds nothing |
| FlowExactness.GuardedExact | internal/binder/binder.go:2007-2031 | the labels of a try statement gain antecedents only for completing and returning parts |
| FlowExactness.FinallyExact | internal/binder/binder.go:2031-2073 | for try statements with a finally block: each way out of it is there only if a guarded part can end that way and the finally block completes |
| FlowExactness.LoopReasonOutside | internal/binder/binder.go:1783-1791 | jumps out of a loop body seen from outside: with the continue target set on exactly the wrapping labels, no other jump is diverted |
| ExactnessGaps.NegatedLiteral | internal/binder/binder.go:483-501 | a condition `!true`, and a statement guarded by it that no run reaches and that has a flow recorded |
| ExactnessGaps.EmptyTry | internal/binder/binder.go:2007-2029 | the same for the catch clause of an empty try block |
| ExactnessGaps.InnerFunction | internal/binder/binder.go:1436-1556 | the same for a statement of an inner function and the runs of the outer one |
| ExactnessGaps.StrayJump | internal/binder/binder.go:1960-1996 | the same for what follows a break without a target |
| ExactnessGaps.TwoDefaults | internal/binder/binder.go:2079-2098 | the same for the second of two default clauses |
| ExactnessGaps.JumpThroughFinally | internal/binder/binder.go:2031-2062 | the same for what follows a jump through a finally block that never completes |
| ExprSoundness.ExprSound | internal/binder/binder.go:2221-2280 | every evaluation of any modelled expression, as a value or as a branch, ends at a flow, or at an antecedent of the target for its truth value, that accounts for the run; an exception is covered by the exception target |
| ExprSoundness.ConditionSound | internal/binder/binder.go:1803-1809 | the same for conditions, with the condition node appended where the expression is no logical one |
| ExprSoundness.LogicalSound | internal/binder/binder.go:2225-2240 | top-level logical expressions may skip the label when nothing inside has flow effects |
| ExprSoundness.LogicalLikeSound | internal/binder/binder.go:2262-2280 | both operands of `&&`, `or`, `&&=` and `or=`, with short-circuiting |
| ExprSoundness.ConditionalSound | internal/binder/binder.go:2290-2313 | both arms of `?:`, and the shortcut when neither has flow effects |
| ExprSoundness.MutateSound | internal/binder/binder.go:503-511 | an assignment node accounts for the assignment and is an antecedent of the exception target |
| ExprSoundness.AddConditionSound | internal/binder/binder.go:483-501 | the condition node, or the shortcut taken instead, accounts for the condition having held |
| StmtSoundness.StmtSound | internal/binder/binder.go:1559-1658 | however a run of any statement ends, the target for that ending or the current flow accounts for it |
| StmtSoundness.WhileSound | internal/binder/binder.go:1861-1874 | while statements, by induction on the iterations of the run |
| StmtSoundness.DoSound | internal/binder/binder.go:1876-1889 | do statements, whose `continue` goes to the condition |
| StmtSoundness.ForSound | internal/binder/binder.go:1891-1906 | for statements; precise unless an assigning incrementor is skipped |
| StmtSoundness.ForOfSound | internal/binder/binder.go:1908-1927 | for-of statements, which assign before each iteration |
| StmtSoundness.IfSound | internal/binder/binder.go:1929-1942 | if statements |
| StmtSoundness.LabeledSound | internal/binder/binder.go:2158-2176 | labelled statements and the jumps to their label |
| StmtSoundness.JumpSound | internal/binder/binder.go:1960-1996 | break and continue join the target that the run jumps to |
| StmtSoundness.ReturnSound | internal/binder/binder.go:1944-1952 | return joins the return target |
| StmtSoundness.ThrowSound | internal/binder/binder.go:1954-1958 | throw ends the flow and is covered by the exception target |
| StmtSoundness.SwitchSound | internal/binder/binder.go:2079-2098 | switch statements |
| StmtSoundness.ClausesSound | internal/binder/binder.go:2100-2129 | the clauses from the one selected on, with fallthrough, and the tests before it |
| StmtSoundness.EnterGroupSound | internal/binder/binder.go:2110-2121 | a group of clauses is entered from the selection or from the group before it |
| StmtSoundness.TrySound | internal/binder/binder.go:1998-2077 | try statements, with any combination of catch and finally |
| StmtSoundness.GuardedSound | internal/binder/binder.go:2007-2031 | the try block and the catch clause as a second try block: exceptions go to the label of the part they occur in |
| StmtSoundness.EnterFinallySound | internal/binder/binder.go:2047-2050 | the finally block starts at a flow that accounts for however the parts before it ended, once its label is reduced to the list for that ending |
| StmtSoundness.LeaveFinallySound | internal/binder/binder.go:2051-2073 | after the finally block what was pending takes effect, through a reduced label |
| StmtSoundness.BlockSound | internal/binder/binder.go:1682-1693 | function declarations are bound first and do not disturb the flow of the others |
| FlowMarks.StmtMarks | internal/binder/binder.go:1568-1575 | binding records flows and returns only on the nodes that it binds |
| FlowMarks.ExprMarks | internal/binder/binder.go:2221-2280 | binding an expression records nothing on a statement or function |
| FlowMarks.DeadReports | internal/binder/binder.go:1695-1730 | unreachable code is marked as reported exactly if it holds a statement to report, and stays so |
| FlowGrowth.StmtGrows | internal/binder/binder.go:580-760 | binding only adds nodes, and only the targets in force and labels of its own gain antecedents |
| FlowGrowth.ExprGrows | internal/binder/binder.go:2221-2280 | the same for expressions |
| FlowGrowth.TryGrows | internal/binder/binder.go:1998-2077 | the same for try statements, whose inner targets are labels of their own |
| FlowGrowth.ClausesGrow | internal/binder/binder.go:2100-2129 | the same for the clauses of a switch |
| FlowGrowth.DeadGrows | internal/binder/binder.go:1559-1567 | in unreachable code no label at all gains antecedents |
| FlowGrowth.ContainerGrows | internal/binder/binder.go:1436-1556 | nor does any label outside a function that is bound |
| FlowBuilder.SetContinueTarget | internal/binder/binder.go:1783-1791 | exactly the labels that directly wrap a loop get its continue target |
| Walks.GoodLeaveFinally | internal/checker/flow.go:203-213 | a walk that passes a reduce label goes on through the reduced antecedents of its finally label |
| Walks.GoodEnterFinally | internal/checker/flow.go:203-213 | at a finally label the innermost reduction in force decides the antecedents |
| Walks.EmbedsSameAssignments | internal/binder/binder.go:503-511 | steps that embed in a run have exactly its assignments, in order |
| Walks.EmbedsHeld | internal/binder/binder.go:483-501 | every condition and clause step that embeds in a run is an event of the run |
| Limits.ExecWithin | internal/binder/binder.go:1960-1996 | a run leaves a statement only by a jump that the statement contains |
| BinderClass.Binder.constructor | internal/binder/binder.go:105-107 | no flow, no targets, no labels |
| BinderClass.Binder.NewFlowNode | internal/binder/binder.go:458-469 | appends the node |
| BinderClass.Binder.FinishLabel | internal/binder/binder.go:570-578 | the flow that goes on from a completed label, which is sealed |
| BinderClass.Binder.AddAntecedentTo | internal/binder/binder.go:563-568 | the new antecedent list: unchanged if the antecedent is unreachable or listed |
| BinderClass.Binder.CreateFlowMutation | internal/binder/binder.go:503-511 | the assignment node, also as an antecedent of the exception target |
| BinderClass.Binder.CreateFlowCondition | internal/binder/binder.go:483-501 | the condition node or the shortcut for it |
| BinderClass.Binder.CreateFlowCall | internal/binder/binder.go:518-521 | the assertion-call node |
| BinderClass.Binder.IsTopLevelLogicalExpression | internal/binder/binder.go:2839-2844 | walking up parentheses and negations agrees with whether a condition is being bound |
| BinderClass.Binder.Bind | internal/binder/binder.go:580-760 | the new graph and flow as FlowBuilder.BindExpr gives them; parent, targets, labels and preSwitchCaseFlow as on entry |
| BinderClass.Binder.BindPrefixUnaryExpressionFlow | internal/binder/binder.go:2178-2193 | the operand with the targets swapped; both restored |
| BinderClass.Binder.BindBinaryExpressionFlow | internal/binder/binder.go:2221-2260 | operators and assignments |
| BinderClass.Binder.BindLogicalExpression | internal/binder/binder.go:2225-2240 | never reads unset targets: an expression that is not top-level is bound under a condition |
| BinderClass.Binder.BindLogicalLikeExpression | internal/binder/binder.go:2262-2280 | both operands through a label of their own |
| BinderClass.Binder.BindConditionOf | internal/binder/binder.go:1793-1809 | true and false targets for the condition, restored after it |
| BinderClass.Binder.BindConditionalExpressionFlow | internal/binder/binder.go:2290-2313 | both arms joined, or the flow from before them |
| BinderClass.Binder.BindStatement | internal/binder/binder.go:1559-1658 | the new state as FlowBuilder.BindStmt gives it, whatever the statement; all context as on entry, except that labels directly wrapping the statement may have got its continue target |
| BinderClass.Binder.SetContinueTargets | internal/binder/binder.go:1783-1791 | the label list after the loop over the parents |
| BinderClass.Binder.BindIterativeStatement | internal/binder/binder.go:1811-1819 | break and continue targets for the body, restored after it |
| BinderClass.Binder.BindWhileStatement | internal/binder/binder.go:1861-1874 | as FlowBuilder.BindLive gives it; context as on entry |
| BinderClass.Binder.BindDoStatement | internal/binder/binder.go:1876-1889 | as FlowBuilder.BindLive gives it; context as on entry |
| BinderClass.Binder.BindForStatement | internal/binder/binder.go:1891-1906 | as FlowBuilder.BindLive gives it; context as on entry |
| BinderClass.Binder.BindForOfStatement | internal/binder/binder.go:1908-1927 | as FlowBuilder.BindLive gives it; context as on entry |
| BinderClass.Binder.BindIfStatement | internal/binder/binder.go:1929-1942 | as FlowBuilder.BindLive gives it; context as on entry |
| BinderClass.Binder.BindReturnStatement | internal/binder/binder.go:1944-1952 | as FlowBuilder.BindLive gives it; context as on entry |
| BinderClass.Binder.FindLabel | internal/binder/binder.go:1981-1988 | the innermost active label of the name |
| BinderClass.Binder.BindBreakOrContinueStatement | internal/binder/binder.go:1960-1996 | joins the target, if there is one, and ends the flow |
| BinderClass.Binder.BindLabeledStatement | internal/binder/binder.go:2158-2176 | the label is active for its statement only |
| BinderClass.Binder.BindBlockStatements | internal/binder/binder.go:1682-1693 | functions first, if the block is reachable |
| BinderClass.Binder.BindUnreachable | internal/binder/binder.go:1695-1730 | the flow is marked as reported once; only functions inside are bound |
| BinderClass.Binder.BindFunctionContainer | internal/binder/binder.go:1467-1541 | a graph of its own with no targets and no labels; those around it as on entry |
| BinderClass.Binder.LeaveFunction | internal/binder/binder.go:1507-1532 | what is recorded at the end of a function |
| BinderClass.Binder.BindTryStatement | internal/binder/binder.go:1998-2077 | as FlowBuilder.BindTry gives it; return and exception targets as on entry |
| BinderClass.Binder.LeaveFinallyBlock | internal/binder/binder.go:2051-2073 | reduce labels for the return, exception and normal lists |
| BinderClass.Binder.BindSwitchStatement | internal/binder/binder.go:2079-2098 | as FlowBuilder.BindSwitch gives it; break target and preSwitchCaseFlow as on entry |
| BinderClass.Binder.BindReachableClauses | internal/binder/binder.go:2100-2129 | the nested loops over the clauses group them as the recursion of FlowBuilder.BindClauses does |
| BinderClass.Binder.BindCaseOrDefaultClause | internal/binder/binder.go:2131-2140 | the test from the flow before the clauses |
| BinderClass.BindFunction | internal/binder/binder.go:1436-1541 | what the class records about a function holds of all its runs and walks: reached statements have reachable flows, a completed body has an implicit return; for a plain function the converse; every completed label has the antecedents it had then; and every walk from a recorded flow shows what guards the statement |
| ModuleInstances.GetModuleInstanceState | internal/ast/utilities.go:2159-2161 | never Unknown; NonInstantiated exactly if nothing that instantiates and no const enum is reachable through bodies, statements and export targets, despite cycles and results cached inside them; the other answers have a reason; Instantiated exactly if something reached instantiates, unless in some export list or block a const enum hides a value |
| ModuleInstances.InstanceSearch.Cached | internal/ast/utilities.go:2172-2187 | a result found in progress or in the cache may be used: what has been visited is closed under reachability if the answer is negative |
| ModuleInstances.InstanceSearch.PopAncestor | internal/ast/utilities.go:2147-2153 | virtual parents and Parent fields together give the parents of the tree |
| ModuleInstances.InstanceSearch.BlockState | internal/ast/utilities.go:2219-2236 | the state of a block; the panic is unreachable |
| ModuleInstances.InstanceSearch.ExportState | internal/ast/utilities.go:2202-2218 | the greatest state of the exported names |
| ModuleInstances.InstanceSearch.AliasTargetState | internal/ast/utilities.go:2243-2283 | the statements of the first enclosing block that declares the name |
| ModuleInstances.InstanceSearch.StatementsState | internal/ast/utilities.go:2257-2279 | the greatest state of the statements with the name; an import alias instantiates |
| ModuleInstances.NothingReached | internal/ast/utilities.go:2172-2187 | after a search with a negative answer nothing that would make it positive is reachable |
| ModuleInstances.MixedExportState | internal/ast/utilities.go:2208-2217 | a namespace that exports a const enum and a function is answered ConstEnumOnly, although it reaches something that instantiates |
| SymbolFlags.OrderIndependence | internal/ast/symbolflags.go:50-73 | declarations of one name conflict, and merge to flags, independently of their order |
| SymbolFlags.CompatibleSymmetric | internal/ast/symbolflags.go:50-73 | the exclude relation is symmetric on the ten kinds that merge by it |
| SymbolFlags.CompatiblePartners | internal/ast/symbolflags.go:50-73 | what each kind merges with |
| SymbolFlags.ConflictFreeIsPairwise | internal/binder/binder.go:190-294 | declaring one after the other is free of conflicts exactly if every two declarations are compatible |
| Symbols.SymbolTable.DeclareSymbol | internal/binder/binder.go:150-301 | keeps every symbol sound (flags of its declarations, each compatible with those before it); which symbol gains the declaration, when the table entry is replaced, which diagnostics are added, and that nothing else changes |
| Symbols.SymbolTable.ReportConflict | internal/binder/binder.go:252-276 | one diagnostic at each earlier declaration and one at the new one |
| Symbols.DeclareKinds | internal/binder/binder.go:150-301 | declaring a name again and again reports nothing exactly if the kinds are free of conflicts; the symbol then has all their flags |
| Symbols.Symbol.AddDeclaration | internal/binder/binder.go:2525-2540 | flags, declarations and value declaration stay those of the merged declarations |
| Symbols.Symbol.Widen | internal/binder/binder.go:282-287 | a conflict makes an accessor a full accessor |
| Symbols.Symbol.SetValueDeclaration | internal/binder/binder.go:2542-2551 | keeps the one of the two that is preferred; who stands in the end is stated by the rows below |
| Symbols.FlagsAreUnion | internal/binder/binder.go:2525-2528 | the flags of a symbol are the union of what its declarations include |
| Symbols.ConstEnumOnlyFlag | internal/binder/binder.go:2533-2536 | a function, class or enum takes the const-enum-only mark away for good |
| Symbols.ValueDeclarationMeaning | internal/binder/binder.go:2542-2551 | there is a value declaration exactly if a value is declared, and it is the first one that is neither an assignment nor a namespace, if there is any |
| Symbols.FirstStands | internal/binder/binder.go:2540-2551 | the first declared value stands when it is declared |
| Symbols.StandsUntil | internal/binder/binder.go:2540-2551 | a value declaration stands until the first value that takes its place: for a namespace or an identifier a value of another kind, for any other assignment one that is no assignment, for everything else none |
| Symbols.OneKind | internal/binder/binder.go:2540-2551 | if all declared values have one kind, the first of them is the value declaration |
| Symbols.ConstEnumOnlyMeaning | internal/binder/binder.go:2533-2536 | the const-enum-only mark is there exactly if some declaration brings it and none is a function, class or enum |
| Symbols.OutcomeMeaning | internal/binder/binder.go:190-294 | when a declaration creates a symbol, is ignored, replaces one, conflicts or merges |
| Symbols.DeclarationsMeaning | internal/binder/binder.go:2528-2532 | every declared node once |
| Diagnostics.CompareOpposite | internal/ast/diagnostic.go:211-243 | comparing the other way round gives the other sign, for trees of chains and related information |
| Diagnostics.CompareTransitive | internal/ast/diagnostic.go:211-243 | the comparison is transitive, strictly where either step is strict |
| Diagnostics.ContentTransitive | internal/ast/diagnostic.go:178-195 | the same for the contents of chains of one size |
| Diagnostics.SizeTransitive | internal/ast/diagnostic.go:164-176 | the same for the sizes of chains |
| Diagnostics.CompareMeaning | internal/ast/diagnostic.go:209-243 | negative exactly if the first comes before the second: by path, then by smaller position, end and code, by message, by the longer chain and then its sizes and messages, by more related information and then by its first difference |
| Diagnostics.StringsMeaning | internal/ast/diagnostic.go:211-218 | strings are ordered by their first different character, or a proper prefix comes first |
| Diagnostics.EqualMeansCompareZero | internal/ast/diagnostic.go:141-162 | diagnostics are equal exactly if they compare as equal and agree on the codes in their chains |
| DiagnosticsCollections.CompareMessageChainContent | internal/ast/diagnostic.go:178-195 | never indexes past the end of the second chain; its loop computes the content comparison |
| DiagnosticsCollections.CompareMessageChainSize | internal/ast/diagnostic.go:164-176 | its loop computes the size comparison |
| DiagnosticsCollections.CompareDiagnostics | internal/ast/diagnostic.go:211-243 | computes the comparison that `Diagnostics.CompareMeaning` gives the meaning of |
| DiagnosticsCollections.BinarySearch | internal/core/core.go:279-282 | the first place that is not before the target; found exactly if an equal element is there |
| DiagnosticsCollections.InsertSorted | internal/core/core.go:279-282 | keeps the bucket sorted and adds the element |
| DiagnosticsCollections.DiagnosticsCollection.Add | internal/ast/diagnostic.go:95-106 | after any sequence of additions every bucket is sorted and holds what was added for its file |
| DiagnosticsCollections.DiagnosticsCollection.Lookup | internal/ast/diagnostic.go:108-119 | finds an equal diagnostic of the same file exactly if one was added |
| DiagnosticsCollections.FilesInOrder | internal/ast/diagnostic.go:129-137 | the listing goes file by file in the order of their names, and in each file no diagnostic comes after one that it is before |
| DiagnosticsCollections.DiagnosticsCollection.GetDiagnostics | internal/ast/diagnostic.go:129-137 | a permutation of everything added, file by file, and of two entries of one file the earlier one has no larger position and is not after the other; sorted exactly if no diagnostic without a file comes after one of a file with an empty name |
| TokenLookup.SourceFile.GetTokenAtPosition | internal/astnav/tokens.go:21-178 | the deepest node at the position if it is a token, or the one scanned token there with that node as parent, always the same object; the cache never disagrees |
| TokenLookup.SourceFile.GetOrCreateToken | internal/ast/ast.go:10202-10229 | creates a token once |
| TokenLookup.SearchList | internal/astnav/tokens.go:87-113 | halving a list finds the node that contains the position, or leaves the left boundary at the end of the last node before it |
| TokenLookup.VisitChildren | internal/astnav/tokens.go:62-115 | the child that a linear search finds; the left boundary otherwise |
| TokenLookup.LeftRange | internal/astnav/tokens.go:69-85 | the left boundary is the start of a token at or before the position |
| TokenLookup.LeftMeaning | internal/astnav/tokens.go:69-85 | the left boundary is the greatest end at or before the position, among the children and the nodes of the list around the position |
| TokenLookup.SameDeepest | internal/astnav/tokens.go:121-171 | every position in one token leads to the same node |
| TokenLookup.LookUpTwice | internal/astnav/tokens.go:31-38 | two positions in one scanned token give one object |
| AtomicIds.SameIdSameNode | internal/ast/utilities.go:21-31 | in every interleaving, two calls return the same id exactly if they are for the same node, and never 0 |
| AtomicIds.IdNeverChanges | internal/ast/utilities.go:21-31 | an id once given never changes |
| AtomicIds.RunKeeps | internal/ast/utilities.go:16-19 | ids given and ids drawn are all different and at most as many as the steps taken |
| SubtreeFacts.FactsMeaning | internal/ast/ast.go:1696-1698 | a node has a fact exactly if a path of children leads to a node with the fact of its own, and no node on the path after the first one excludes it |
| SubtreeFacts.QueriesAnswered | internal/ast/ast.go:1947-1955 | in every interleaving of loads and stores, every query is answered as without a cache, and the Computed mark never shows |
| SubtreeFacts.RunKeeps | internal/ast/ast.go:1947-1955 | a cached value is the facts of the node with the mark; a query in progress holds the facts of the children asked so far |
| Shadow.PositionIsReachable | _tools/customlint/shadow.go:186-236 | ends on cyclic graphs; reports a use exactly if a path of blocks without the declaration leads to it from the start block; without a start block reports at once |
| Shadow.Search.Reachable | _tools/customlint/shadow.go:199-224 | a block is searched once, and that loses nothing |
| Wire.StreamRoundTrip | internal/api/server.go:159-232 | messages written one after the other are read back, consuming exactly their bytes |
| Wire.BinRoundTrip | internal/api/server.go:193-232 | a binary is read back, in all three length forms, exactly if its length fits in 32 bits |
| Wire.BinBytes | internal/api/server.go:309-335 | the bytes of a binary: C4 and one byte of length, C5 and two, or C6 and four, the most significant first, and then the binary |
| Wire.DecodeMeaning | internal/api/server.go:193-232 | a binary is read exactly if it is there in one of the three forms, not only the shortest; any other first byte is an invalid request |
| Wire.MessageBytes | internal/api/server.go:290-307 | the bytes of a message: 93, CC, its type, and its two binaries |
| Wire.MessageMeaning | internal/api/server.go:159-191 | a message is read exactly if these bytes are there, with a known type and the expected name |
| Wire.MessageRoundTrip | internal/api/server.go:159-191 | a message is read back, or refused if another method is expected |
| Wire.MessageCutShort | internal/api/server.go:159-232 | a message that is cut short is never taken for another |
| Wire.Server.WriteMessage | internal/api/server.go:290-307 | appends the encoding |
| Wire.Server.WriteBin | internal/api/server.go:309-335 | appends the encoding, its length in 1, 2 or 4 bytes |
| Wire.Server.ReadRequest | internal/api/server.go:159-191 | decodes, with the error of the first part that is wrong |
| Wire.Server.ReadBin | internal/api/server.go:193-232 | decodes, with the error of the first part that is wrong |
| Visitor.VisitSlice | internal/ast/visitor.go:137-183 | changed exactly if a visit changes a node; the slice up to there and what the visits give after it |
| Visitor.VisitSliceIsConcat | internal/ast/visitor.go:137-183 | what the visits give, one after the other, unless a syntax list stands in the slice itself |
| DeepClone.NodeFactory.DeepCloneNode | internal/ast/deepclone.go:41-43 | the same kinds, flags and positions in nodes and lists that are all new; no object other than the factory is written to |
| DeepClone.NodeFactory.IdentityVisit | internal/ast/visitor.go:170-183 | a visitor whose callback changes nothing gives back the same root and makes no node and no list |
| DeepClone.NodeFactory.UpdateNode | internal/ast/ast.go:2100-2105 | a new node, with the flags and position of the original, exactly if some child is another object than before |
| DeepClone.NodeVisitor.Visit | internal/ast/deepclone.go:7-14 | the same object exactly if nothing at or below the node is to be changed; otherwise everything without a change below it is shared and every node with one is made anew, once |
| DeepClone.NodeVisitor.VisitEachChild | internal/ast/ast.go:2111-2113 | the node itself exactly if no slot has something to change |
| DeepClone.NodeVisitor.VisitNodes | internal/ast/deepclone.go:16-26 | the list itself unless the slice changes or an empty list is forced to |
| DeepClone.NodeVisitor.VisitSlice | internal/ast/visitor.go:137-183 | the slice itself until a visit gives another object, and then what the visits give; changed exactly if something below a node is to be changed |
| DeepClone.CloneIsNew | internal/ast/deepclone.go:12 | the change of the leaves and empty lists reaches every node and list above them |
| DeepClone.VisitedSame | internal/ast/ast.go:122-131 | whatever is made anew, the tree says the same |
| DeepClone.IdentityTouchesNothing | internal/ast/visitor.go:97-109 | nothing in any tree is changed by a callback that clones nothing |

## Left out

- FlowTheorems.TraceSoundness: is stated for `Simple` functions only; `FlowGaps.dfy` shows that none of the restrictions can be dropped.
- FlowTheorems.CompletionSoundness: the same.
- FlowTheorems.ReturnSoundness: the same.
- FlowExactness.ReachabilityExact: leaves out the families of `ExactnessGaps.dfy`; whether a function of such a family is exact depends on whether the hidden literal, the empty block or the jump matters to any of its runs, not on its shape.
- FlowExactness.ImplicitReturnExact: the same.
- FlowEvidence.GuardsEvident: is stated for the functions of the outermost list; for a function inside another, `FlowEvidence.FunctionEvidence` takes as given that nothing else adds to its labels. That the ids of a program are distinct is given, too.
- FlowGuards.ConditionShows: shows nothing for conditions that narrow nothing, for which the source makes no node.
- ModuleInstances.GetModuleInstanceState: that `Instantiated` is exact has a sufficient condition only; when a const enum does hide a value, the answer depends on what a search has already visited.
- Variable statements declare one variable, calls have one argument, and the declarations of a `for` initializer are the expressions assigned; constructors are function statements marked as such. Statements and references carry ids, which the theorems that name an id take to be recorded by nothing bound before.
- Flow nodes and labels are entries of an arena that the class holds, not objects; the flags Referenced and Shared are not modelled.
- `FinallyLabel` is a constructor of its own for the branch label that starts a finally block; the builder never tells it from other branch labels.
- `??`, `??=` and optional chains: the graph treats a `??` left operand as truthy or falsy, so the soundness statements do not hold for them.
- Immediately invoked functions, class static blocks, destructuring and array mutation in flow graphs; property and element access as references; function expressions.
- Expression statements call `maybeBindExpressionFlowIfCall` on the expression, and so does the model; for comma expressions the source passes the comma expression itself, which is never a call, so nothing is modelled there.
- Flow nodes recorded on identifiers, the fallthrough flow of clauses, and whether a label was referenced.
- The option that allows unreachable code, under which only return statements have a flow recorded; the diagnostics of unreachable code.
- Case tests as observed points of a run: the test of an empty clause may be bound under a stale flow.
- Strict mode, containers and block scopes, `inAssignmentPattern`, JSDoc and reparsed nodes, CommonJS exports.
- The text of diagnostics about declarations, their related information, default-export messages and the names of classifiable declarations; `Symbol.Parent`.
- Symbol tables of different containers, and which of them a declaration goes to.
- Slice aliasing of the ancestor stack of module instance state, which is taken as an immutable sequence.
- The text of a source file: the scanner is a given tiling of the file into tokens, with which the tree is aligned; JSDoc, reparsed nodes and lookups that do not allow positions in leading trivia or that include a preceding token.
- The per-kind node structs: nodes have child slots and lists of children.
- The exceptional propagation of subtree facts of binding elements, and nodes that do not cache their facts.
- Visitors of trees whose callback removes nodes, replaces them by given ones or by several (`Visitor.VisitSlice` covers what a slice does with such results); the hooks of node factories; lifting statements to a block; modifier lists, which are like other lists.
- Failures of the underlying streams of the API server, request handling and JSON.
- The command line, language server, file systems, printer and parser.
