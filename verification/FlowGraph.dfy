/** The flow graph: an arena of nodes that point backwards to their antecedents. */
module FlowGraph {
  import opened Syntax

  type FlowId = nat

  /** `FinallyLabel` is a branch label made for the start of a finally block. The builder never tells
      the two apart; the walks below do, because only these labels are ever reduced. */
  datatype FlowNode =
    | Unreachable
    | Start
    | BranchLabel(antecedents: seq<FlowId>)
    | FinallyLabel(antecedents: seq<FlowId>)
    | LoopLabel(antecedents: seq<FlowId>)
    | Assignment(target: string, antecedent: FlowId)
    | Condition(sense: bool, expr: Expr, antecedent: FlowId)
    | SwitchClause(switchId: nat, clauseStart: nat, clauseEnd: nat, antecedent: FlowId)
    | AssertionCall(expr: Expr, antecedent: FlowId)
    | ReduceLabel(finallyLabel: FlowId, reduced: seq<FlowId>, antecedent: FlowId)

  type Graph = seq<FlowNode>

  const UNREACHABLE_FLOW: FlowId := 0
  const REPORTED_UNREACHABLE_FLOW: FlowId := 1

  predicate IsLabel(n: FlowNode) {
    n.BranchLabel? || n.FinallyLabel? || n.LoopLabel?
  }

  predicate IsUnreachable(g: Graph, f: FlowId) {
    f < |g| && g[f].Unreachable?
  }

  function Antecedents(g: Graph, join: FlowId): seq<FlowId> {
    if join < |g| && IsLabel(g[join]) then g[join].antecedents else []
  }

  /** Adds an antecedent to a label, unless it is unreachable or already listed. */
  function AddAntecedent(g: Graph, join: FlowId, antecedent: FlowId): Graph {
    if !IsUnreachable(g, antecedent) && join < |g| && IsLabel(g[join]) && antecedent !in g[join].antecedents then
      g[join := g[join].(antecedents := [antecedent] + g[join].antecedents)]
    else
      g
  }

  /** Collapses a completed label: to the unreachable node, to its one antecedent, or to itself. */
  function FinishFlowLabel(g: Graph, join: FlowId): FlowId {
    var list := Antecedents(g, join);
    if list == [] then UNREACHABLE_FLOW
    else if |list| == 1 then list[0]
    else join
  }

  // ----- how a graph may change -----

  /** A node after later building: the same, or the same label with more antecedents. */
  ghost predicate Refines(before: FlowNode, after: FlowNode) {
    || before == after
    || (before.BranchLabel? && after.BranchLabel? && MoreAntecedents(before.antecedents, after.antecedents))
    || (before.FinallyLabel? && after.FinallyLabel? && MoreAntecedents(before.antecedents, after.antecedents))
    || (before.LoopLabel? && after.LoopLabel? && MoreAntecedents(before.antecedents, after.antecedents))
  }

  ghost predicate MoreAntecedents(before: seq<FlowId>, after: seq<FlowId>) {
    forall a :: a in before ==> a in after
  }

  ghost predicate Extends(g: Graph, h: Graph) {
    && |g| <= |h|
    && forall i :: 0 <= i < |g| ==> Refines(g[i], h[i])
  }

  /** Only the listed nodes of `g` may have gained antecedents in `h`. */
  ghost predicate Touches(targets: set<FlowId>, g: Graph, h: Graph) {
    && Extends(g, h)
    && forall i :: 0 <= i < |g| && i !in targets ==> g[i] == h[i]
  }

  /** A label that plain control flow joins at. */
  predicate IsJoin(g: Graph, join: FlowId) {
    join < |g| && (g[join].BranchLabel? || g[join].LoopLabel?)
  }
}
