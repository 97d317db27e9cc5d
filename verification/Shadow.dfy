/** The lint for shadowed variables: whether control can get from the shadowing declaration to a use of the
    shadowed variable without passing its declaration again. */
module Shadow {
  import opened Wrappers

  type BlockId = nat
  type Pos = nat

  datatype Range = Range(pos: Pos, end: Pos)

  datatype Block = Block(nodes: seq<Range>, succs: seq<BlockId>)

  type Cfg = seq<Block>

  ghost predicate IsCfg(c: Cfg) {
    forall b, i :: 0 <= b < |c| && 0 <= i < |c[b].succs| ==> c[b].succs[i] < |c|
  }

  predicate PosInBlock(b: Block, pos: Pos) {
    b.nodes != [] && b.nodes[0].pos <= pos <= b.nodes[|b.nodes| - 1].end
  }

  predicate HasUse(b: Block, uses: seq<Pos>) {
    exists use :: use in uses && PosInBlock(b, use)
  }

  // ----- what the search looks for -----

  ghost predicate Open(c: Cfg, decl: Pos, b: BlockId) {
    b < |c| && !PosInBlock(c[b], decl)
  }

  /** A path of blocks without the declaration. */
  ghost predicate IsOpenPath(c: Cfg, decl: Pos, path: seq<BlockId>) {
    && (forall i :: 0 <= i < |path| ==> Open(c, decl, path[i]))
    && forall i :: 0 <= i < |path| - 1 ==> path[i + 1] in c[path[i]].succs
  }

  ghost predicate LeadsTo(c: Cfg, decl: Pos, path: seq<BlockId>, b: BlockId, use: Pos) {
    IsOpenPath(c, decl, path) && path != [] && path[0] == b && PosInBlock(c[path[|path| - 1]], use)
  }

  /** A use can be reached from the block in which the declaration is shadowed, through its successors. */
  ghost predicate Reaches(c: Cfg, decl: Pos, start: BlockId, use: Pos)
    requires start < |c|
  {
    exists b, path :: b in c[start].succs && LeadsTo(c, decl, path, b, use)
  }

  lemma LeadsFurther(c: Cfg, decl: Pos, path: seq<BlockId>, a: BlockId, b: BlockId, use: Pos)
    requires LeadsTo(c, decl, path, b, use) && Open(c, decl, a) && b in c[a].succs
    ensures LeadsTo(c, decl, [a] + path, a, use)
  {
    var longer := [a] + path;
    assert forall i :: 0 < i < |longer| ==> longer[i] == path[i - 1];
  }

  /** The blocks seen since `before` without a find: their successors have been seen too. */
  ghost predicate Exhausted(c: Cfg, decl: Pos, uses: seq<Pos>, before: set<BlockId>, seen: set<BlockId>) {
    forall k :: k in seen && k !in before && Open(c, decl, k) ==>
                  !HasUse(c[k], uses) && forall b :: b in c[k].succs ==> b in seen
  }

  lemma {:induction false} PathSeen(c: Cfg, decl: Pos, uses: seq<Pos>, seen: set<BlockId>, path: seq<BlockId>, i: nat)
    requires Exhausted(c, decl, uses, {}, seen) && IsOpenPath(c, decl, path) && i < |path| && path[0] in seen
    ensures path[i] in seen
  {
    hide HasUse, PosInBlock;
    if i > 0 {
      PathSeen(c, decl, uses, seen, path, i - 1);
      assert path[i - 1 + 1] in c[path[i - 1]].succs;
    }
  }

  class Search {
    const c: Cfg
    const decl: Pos
    const uses: seq<Pos>
    var seen: set<BlockId>

    constructor (c: Cfg, decl: Pos, uses: seq<Pos>)
      ensures this.c == c && this.decl == decl && this.uses == uses && seen == {}
    {
      this.c, this.decl, this.uses, seen := c, decl, uses, {};
    }

    ghost function Unseen(): set<BlockId>
      reads this
    {
      set b: BlockId | b < |c| && b !in seen
    }

    /** A block is searched once. */
    method Reachable(b: BlockId) returns (found: Option<Pos>)
      requires IsCfg(c) && b < |c|
      modifies this`seen
      ensures old(seen) + {b} <= seen
      ensures found.Some? ==> found.value in uses && exists path :: LeadsTo(c, decl, path, b, found.value)
      ensures found.None? ==> Exhausted(c, decl, uses, old(seen), seen)
      decreases Unseen(), 0
    {
      hide PosInBlock;
      if b in seen {
        return None;
      }
      seen := seen + {b};
      assert b in old(Unseen()) && b !in Unseen() && Unseen() <= old(Unseen());
      if PosInBlock(c[b], decl) {
        return None;
      }
      found := UseIn(b);
      if found.Some? {
        assert LeadsTo(c, decl, [b], b, found.value);
        return;
      }
      found := ReachableFrom(c[b].succs);
      if found.Some? {
        ghost var s, path :| s in c[b].succs && LeadsTo(c, decl, path, s, found.value);
        LeadsFurther(c, decl, path, b, s, found.value);
      }
    }

    method UseIn(b: BlockId) returns (found: Option<Pos>)
      requires b < |c|
      ensures found.Some? ==> found.value in uses && PosInBlock(c[b], found.value)
      ensures found.None? ==> !HasUse(c[b], uses)
    {
      var i := 0;
      while i < |uses|
        invariant 0 <= i <= |uses|
        invariant forall j :: 0 <= j < i ==> !PosInBlock(c[b], uses[j])
      {
        if PosInBlock(c[b], uses[i]) {
          return Some(uses[i]);
        }
        i := i + 1;
      }
      return None;
    }

    method ReachableFrom(succs: seq<BlockId>) returns (found: Option<Pos>)
      requires IsCfg(c) && forall b :: b in succs ==> b < |c|
      modifies this`seen
      ensures old(seen) <= seen
      ensures found.Some? ==> found.value in uses && exists b, path :: b in succs && LeadsTo(c, decl, path, b, found.value)
      ensures found.None? ==> Exhausted(c, decl, uses, old(seen), seen) && forall b :: b in succs ==> b in seen
      decreases Unseen(), 1
    {
      hide PosInBlock, LeadsTo, HasUse, Open;
      var i := 0;
      while i < |succs|
        invariant 0 <= i <= |succs| && old(seen) <= seen && Unseen() <= old(Unseen())
        invariant Exhausted(c, decl, uses, old(seen), seen) && forall j :: 0 <= j < i ==> succs[j] in seen
      {
        assert succs[i] in succs;
        found := Reachable(succs[i]);
        if found.Some? {
          return;
        }
        i := i + 1;
      }
      return None;
    }
  }

  /** The first block that holds the position. */
  ghost predicate IsStart(c: Cfg, ident: Pos, start: BlockId) {
    start < |c| && PosInBlock(c[start], ident) && forall b :: 0 <= b < start ==> !PosInBlock(c[b], ident)
  }

  /** Ends on every control-flow graph, also one with cycles, and reports a use exactly if one can be reached
      from the first block with the shadowing declaration. Without such a block it reports at once. */
  method PositionIsReachable(c: Cfg, ident: Pos, decl: Pos, uses: seq<Pos>) returns (use: Pos, found: bool)
    requires IsCfg(c)
    ensures (forall b :: 0 <= b < |c| ==> !PosInBlock(c[b], ident)) ==> found && use == 0
    ensures forall start: BlockId :: IsStart(c, ident, start) ==>
              && (found <==> exists u :: u in uses && Reaches(c, decl, start, u))
              && (found ==> use in uses && Reaches(c, decl, start, use))
  {
    hide PosInBlock, Reaches;
    var start: BlockId := 0;
    while start < |c| && !PosInBlock(c[start], ident)
      invariant 0 <= start <= |c| && forall b :: 0 <= b < start ==> !PosInBlock(c[b], ident)
    {
      start := start + 1;
    }
    if start == |c| {
      return 0, true;
    }
    assert forall other: BlockId :: IsStart(c, ident, other) ==> other == start;
    use, found := SearchFrom(c, start, decl, uses);
  }

  method SearchFrom(c: Cfg, start: BlockId, decl: Pos, uses: seq<Pos>) returns (use: Pos, found: bool)
    requires IsCfg(c) && start < |c|
    ensures found <==> exists u :: u in uses && Reaches(c, decl, start, u)
    ensures found ==> use in uses && Reaches(c, decl, start, use)
  {
    hide LeadsTo, Exhausted;
    var search := new Search(c, decl, uses);
    assert forall b :: b in c[start].succs ==> b < |c|;
    var r := search.ReachableFrom(c[start].succs);
    if r.None? {
      forall u | u in uses
        ensures !Reaches(c, decl, start, u)
      {
        NothingReached(c, decl, uses, search.seen, start, u);
      }
      return 0, false;
    }
    return r.value, true;
  }

  lemma NothingReached(c: Cfg, decl: Pos, uses: seq<Pos>, seen: set<BlockId>, start: BlockId, use: Pos)
    requires Exhausted(c, decl, uses, {}, seen) && start < |c| && use in uses
    requires forall b :: b in c[start].succs ==> b in seen
    ensures !Reaches(c, decl, start, use)
  {
    hide PosInBlock;
    if Reaches(c, decl, start, use) {
      var b, path :| b in c[start].succs && LeadsTo(c, decl, path, b, use);
      PathSeen(c, decl, uses, seen, path, |path| - 1);
    }
  }
}
