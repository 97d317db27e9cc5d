/** Declaring names in a symbol table: declarations of one name merge into one symbol, conflict, or replace
    a symbol that was only assigned to. */
module Symbols {
  import opened Wrappers
  import opened SymbolFlags

  /** The node kinds that matter to which declaration stands for the value of a symbol. */
  datatype NodeKind = ModuleDeclaration | Identifier | BinaryExpression | AccessExpression | CallExpression | OtherKind(kind: nat)

  datatype Node = Node(id: nat, kind: NodeKind)

  predicate IsAssignmentDeclaration(n: Node) {
    n.kind.BinaryExpression? || n.kind.AccessExpression? || n.kind.Identifier? || n.kind.CallExpression?
  }

  predicate IsEffectiveModuleDeclaration(n: Node) {
    n.kind.ModuleDeclaration? || n.kind.Identifier?
  }

  /** A declaration as it was asked for. */
  datatype Request = Request(node: Node, includes: Flags, excludes: Flags)

  // ----- what a symbol holds, as a function of the declarations merged into it -----

  function MergeFlags(flags: Flags, includes: Flags): Flags {
    var both := flags + includes;
    if ConstEnumOnlyModule in both && Meets(both, {Function, Class, RegularEnum}) then both - {ConstEnumOnlyModule} else both
  }

  function FlagsOf(merged: seq<Request>): Flags {
    if merged == [] then {} else MergeFlags(FlagsOf(merged[..|merged| - 1]), merged[|merged| - 1].includes)
  }

  function DeclarationsOf(merged: seq<Request>): seq<Node> {
    if merged == [] then []
    else
      var before, n := DeclarationsOf(merged[..|merged| - 1]), merged[|merged| - 1].node;
      if n in before then before else before + [n]
  }

  function Prefer(current: Option<Node>, n: Node): Option<Node> {
    if current.None? || (IsAssignmentDeclaration(current.value) && !IsAssignmentDeclaration(n))
       || (current.value.kind != n.kind && IsEffectiveModuleDeclaration(current.value))
    then Some(n) else current
  }

  function ValueDeclarationOf(merged: seq<Request>): Option<Node> {
    if merged == [] then None
    else
      var before, r := ValueDeclarationOf(merged[..|merged| - 1]), merged[|merged| - 1];
      if Meets(r.includes, VALUE) then Prefer(before, r.node) else before
  }

  /** Assignment declarations and variables merge whatever else they exclude. */
  predicate IsExempt(flags: Flags, includes: Flags) {
    (Meets(includes, VARIABLE) && Assignment in flags) || (Assignment in includes && Meets(flags, VARIABLE))
  }

  /** Every declaration was compatible with those merged before it. */
  ghost predicate Coherent(merged: seq<Request>) {
    forall i :: 0 < i < |merged| ==>
      !Meets(FlagsOf(merged[..i]), merged[i].excludes) || IsExempt(FlagsOf(merged[..i]), merged[i].includes)
  }

  // ----- what the flags and the value declaration mean -----

  /** The flags are the union of what the declarations include, but for the mark of a module that holds
      const enums only. */
  lemma {:induction false} FlagsAreUnion(merged: seq<Request>, f: Flag)
    requires f != ConstEnumOnlyModule
    ensures f in FlagsOf(merged) <==> exists i :: 0 <= i < |merged| && f in merged[i].includes
  {
    if merged != [] {
      var front := merged[..|merged| - 1];
      FlagsAreUnion(front, f);
      assert forall i :: 0 <= i < |front| ==> front[i] == merged[i];
    }
  }

  /** A symbol that is marked as holding const enums only is no function, class or enum. */
  lemma ConstEnumOnlyFlag(merged: seq<Request>)
    ensures ConstEnumOnlyModule in FlagsOf(merged) ==> !Meets(FlagsOf(merged), {Function, Class, RegularEnum})
  {
  }

  /** The mark is there exactly if some declaration brings it and none is a function, class or enum. */
  lemma {:induction false} ConstEnumOnlyMeaning(merged: seq<Request>)
    ensures ConstEnumOnlyModule in FlagsOf(merged) <==>
              && (exists i :: 0 <= i < |merged| && ConstEnumOnlyModule in merged[i].includes)
              && (forall i :: 0 <= i < |merged| ==> !Meets(merged[i].includes, {Function, Class, RegularEnum}))
  {
    if merged != [] {
      var front, last := merged[..|merged| - 1], merged[|merged| - 1];
      ConstEnumOnlyMeaning(front);
      assert forall i :: 0 <= i < |front| ==> front[i] == merged[i];
      if f :| f in FlagsOf(front) && f in {Function, Class, RegularEnum} {
        FlagsAreUnion(front, f);
        var i :| 0 <= i < |front| && f in front[i].includes;
        assert f in merged[i].includes && Meets(merged[i].includes, {Function, Class, RegularEnum});
      } else if i :| 0 <= i < |front| && Meets(front[i].includes, {Function, Class, RegularEnum}) {
        var f :| f in front[i].includes && f in {Function, Class, RegularEnum};
        FlagsAreUnion(front, f);
      }
    }
  }

  predicate IsPlain(n: Node) {
    !IsAssignmentDeclaration(n) && !IsEffectiveModuleDeclaration(n)
  }

  predicate IsValue(r: Request) {
    Meets(r.includes, VALUE)
  }

  /** The first declared value that is neither an assignment nor a namespace. */
  ghost predicate IsFirstPlain(merged: seq<Request>, i: nat) {
    && i < |merged| && IsValue(merged[i]) && IsPlain(merged[i].node)
    && forall j :: 0 <= j < i ==> !(IsValue(merged[j]) && IsPlain(merged[j].node))
  }

  /** The value declaration is one of the declared values, and the first plain one if there is any. */
  lemma {:induction false} ValueDeclarationMeaning(merged: seq<Request>)
    ensures ValueDeclarationOf(merged).None? <==> forall i :: 0 <= i < |merged| ==> !IsValue(merged[i])
    ensures ValueDeclarationOf(merged).Some? ==>
              exists i :: 0 <= i < |merged| && IsValue(merged[i]) && merged[i].node == ValueDeclarationOf(merged).value
    ensures forall i: nat :: IsFirstPlain(merged, i) ==> ValueDeclarationOf(merged) == Some(merged[i].node)
  {
    hide Meets;
    if merged != [] {
      var front := merged[..|merged| - 1];
      ValueDeclarationMeaning(front);
      assert forall i :: 0 <= i < |front| ==> front[i] == merged[i];
      forall i: nat | IsFirstPlain(merged, i)
        ensures ValueDeclarationOf(merged) == Some(merged[i].node)
      {
        if i < |front| {
          assert IsFirstPlain(front, i);
        }
      }
    }
  }

  /** The value declaration after the first `i` declarations. */
  function StandingAt(merged: seq<Request>, i: nat): Option<Node>
    requires i <= |merged|
  {
    ValueDeclarationOf(merged[..i])
  }

  /** The first declared value is the value declaration at first. */
  lemma FirstStands(merged: seq<Request>, i: nat)
    requires i < |merged| && IsValue(merged[i]) && forall j :: 0 <= j < i ==> !IsValue(merged[j])
    ensures StandingAt(merged, i + 1) == Some(merged[i].node)
  {
    hide Meets;
    NoneStands(merged, i);
    StandingNext(merged, i);
  }

  lemma {:induction false} NoneStands(merged: seq<Request>, i: nat)
    requires i <= |merged| && forall j :: 0 <= j < i ==> !IsValue(merged[j])
    ensures StandingAt(merged, i) == None
    decreases i
  {
    hide Meets;
    if i > 0 {
      NoneStands(merged, i - 1);
      StandingNext(merged, i - 1);
    }
  }

  lemma StandingNext(merged: seq<Request>, i: nat)
    requires i < |merged|
    ensures StandingAt(merged, i + 1) ==
              if IsValue(merged[i]) then Prefer(StandingAt(merged, i), merged[i].node) else StandingAt(merged, i)
  {
    assert merged[..i + 1][..i] == merged[..i];
  }

  /** Whether a declaration of this node makes way for one of the other: a namespace for any other kind of
      node, and an assignment for what is no assignment. */
  predicate MakesWay(standing: Node, n: Node) {
    match standing.kind
    case ModuleDeclaration => !n.kind.ModuleDeclaration?
    case Identifier => !n.kind.Identifier?
    case BinaryExpression => !IsAssignmentDeclaration(n)
    case AccessExpression => !IsAssignmentDeclaration(n)
    case CallExpression => !IsAssignmentDeclaration(n)
    case OtherKind(_) => false
  }

  /** A value declaration stands until the first declared value that it makes way for, which then is the
      value declaration. */
  lemma {:induction false} StandsUntil(merged: seq<Request>, i: nat, k: nat)
    requires i < k <= |merged| && StandingAt(merged, i + 1) == Some(merged[i].node)
    requires forall j :: i < j < k && IsValue(merged[j]) ==> !MakesWay(merged[i].node, merged[j].node)
    ensures StandingAt(merged, k) == Some(merged[i].node)
    ensures k < |merged| && IsValue(merged[k]) && MakesWay(merged[i].node, merged[k].node) ==>
              StandingAt(merged, k + 1) == Some(merged[k].node)
    decreases k
  {
    hide Meets;
    if k > i + 1 {
      StandsUntil(merged, i, k - 1);
      StandingNext(merged, k - 1);
    }
    if k < |merged| {
      StandingNext(merged, k);
    }
  }

  /** Among values of one kind the first one is the value declaration. */
  lemma OneKind(merged: seq<Request>, i: nat)
    requires i < |merged| && IsValue(merged[i]) && forall j :: 0 <= j < i ==> !IsValue(merged[j])
    requires forall j :: i < j < |merged| && IsValue(merged[j]) ==> merged[j].node.kind == merged[i].node.kind
    ensures ValueDeclarationOf(merged) == Some(merged[i].node)
  {
    FirstStands(merged, i);
    StandsUntil(merged, i, |merged|);
    assert merged[..|merged|] == merged;
  }

  /** Each node once, in the order of declaration. */
  lemma {:induction false} DeclarationsMeaning(merged: seq<Request>)
    ensures forall n :: n in DeclarationsOf(merged) <==> exists i :: 0 <= i < |merged| && merged[i].node == n
    ensures forall i, j :: 0 <= i < j < |DeclarationsOf(merged)| ==> DeclarationsOf(merged)[i] != DeclarationsOf(merged)[j]
  {
    if merged != [] {
      var front := merged[..|merged| - 1];
      DeclarationsMeaning(front);
      assert forall i :: 0 <= i < |front| ==> front[i] == merged[i];
    }
  }

  lemma Appended(merged: seq<Request>, r: Request)
    ensures (merged + [r])[..|merged|] == merged && (merged + [r])[|merged|] == r
    ensures FlagsOf(merged + [r]) == MergeFlags(FlagsOf(merged), r.includes)
    ensures Coherent(merged) && (merged == [] || !Meets(FlagsOf(merged), r.excludes) || IsExempt(FlagsOf(merged), r.includes)) ==>
              Coherent(merged + [r])
  {
    hide Meets, MergeFlags, IsExempt;
    var all := merged + [r];
    assert all[..|merged|] == merged;
    forall i | 0 <= i <= |merged|
      ensures all[..i] == merged[..i]
    {
    }
  }

  lemma AppendedNode(merged: seq<Request>, r: Request)
    ensures DeclarationsOf(merged + [r]) == if r.node in DeclarationsOf(merged) then DeclarationsOf(merged) else DeclarationsOf(merged) + [r.node]
    ensures ValueDeclarationOf(merged + [r]) == if Meets(r.includes, VALUE) then Prefer(ValueDeclarationOf(merged), r.node) else ValueDeclarationOf(merged)
  {
    hide Meets, Prefer;
    assert (merged + [r])[..|merged|] == merged;
  }

  // ----- symbols -----

  class Symbol {
    const name: string
    var flags: Flags
    var declarations: seq<Node>
    var valueDeclaration: Option<Node>
    ghost var merged: seq<Request>
    /** Whether the flags were set to those of a full accessor after a conflict. */
    ghost var widened: bool
    ghost const discardable: bool

    ghost function Extra(): Flags
      reads this
    {
      (if widened then ACCESSOR else {}) + (if discardable then {ReplaceableByMethod} else {})
    }

    /** The flags are those of the declarations, and the declarations were compatible one by one. */
    ghost predicate Valid()
      reads this
    {
      && flags == FlagsOf(merged) + Extra()
      && declarations == DeclarationsOf(merged)
      && valueDeclaration == ValueDeclarationOf(merged)
      && Coherent(merged)
      && (widened ==> Meets(FlagsOf(merged), ACCESSOR))
    }

    constructor (name: string, isReplaceableByMethod: bool)
      ensures this.name == name && merged == [] && !widened && discardable == isReplaceableByMethod && Valid()
    {
      this.name := name;
      flags := if isReplaceableByMethod then {ReplaceableByMethod} else {};
      declarations, valueDeclaration := [], None;
      merged, widened, discardable := [], false, isReplaceableByMethod;
    }

    method AddDeclaration(r: Request)
      requires Valid()
      requires merged == [] || !Meets(FlagsOf(merged), r.excludes) || IsExempt(FlagsOf(merged), r.includes)
      modifies this
      ensures Valid() && merged == old(merged) + [r] && widened == old(widened)
    {
      hide Meets, IsExempt, Coherent, Prefer, MergeFlags, FlagsOf, DeclarationsOf, ValueDeclarationOf;
      Appended(merged, r);
      AppendedNode(merged, r);
      MergeKeepsFlags(FlagsOf(merged), r.includes);
      AddFlags(r.includes);
      if r.node !in declarations {
        declarations := declarations + [r.node];
      }
      if Meets(r.includes, VALUE) {
        SetValueDeclaration(r.node);
      }
      merged := merged + [r];
    }

    /** A function, class or enum takes away the mark of a module that holds const enums only. */
    method AddFlags(includes: Flags)
      requires flags == FlagsOf(merged) + Extra()
      modifies this`flags
      ensures flags == MergeFlags(FlagsOf(merged), includes) + Extra()
    {
      MergeExtra(FlagsOf(merged), Extra(), includes);
      flags := flags + includes;
      if ConstEnumOnlyModule in flags && Meets(flags, {Function, Class, RegularEnum}) {
        flags := flags - {ConstEnumOnlyModule};
      }
    }

    method Widen(includes: Flags)
      requires Valid()
      modifies this`flags, this`widened
      ensures Valid() && widened == (old(widened) || Widens(old(flags), includes))
    {
      if flags * ACCESSOR != {} && flags * ACCESSOR != includes * ACCESSOR {
        flags := flags + ACCESSOR;
        widened := true;
      }
    }

    method SetValueDeclaration(n: Node)
      modifies this`valueDeclaration
      ensures valueDeclaration == Prefer(old(valueDeclaration), n)
    {
      if valueDeclaration.None?
         || (IsAssignmentDeclaration(valueDeclaration.value) && !IsAssignmentDeclaration(n))
         || (valueDeclaration.value.kind != n.kind && IsEffectiveModuleDeclaration(valueDeclaration.value)) {
        valueDeclaration := Some(n);
      }
    }
  }

  lemma MergeKeepsFlags(flags: Flags, includes: Flags)
    ensures Meets(flags, ACCESSOR) ==> Meets(MergeFlags(flags, includes), ACCESSOR)
  {
    if Meets(flags, ACCESSOR) {
      var f :| f in flags && f in ACCESSOR;
      assert f in MergeFlags(flags, includes);
    }
  }

  /** The accessor flags and the discardable mark do not take part in merging. */
  lemma MergeExtra(flags: Flags, extra: Flags, includes: Flags)
    requires extra <= ACCESSOR + {ReplaceableByMethod}
    ensures MergeFlags(flags + extra, includes) == MergeFlags(flags, includes) + extra
  {
    assert (flags + extra) + includes == (flags + includes) + extra;
    assert Meets((flags + extra) + includes, {Function, Class, RegularEnum}) <==> Meets(flags + includes, {Function, Class, RegularEnum});
  }

  // ----- the table -----

  /** What becomes of a declaration. */
  datatype Outcome = Created | Ignored | Merged | Replaced | Conflicting

  function Decide(found: Option<Flags>, includes: Flags, excludes: Flags, isReplaceableByMethod: bool): Outcome {
    if found.None? then Created
    else if isReplaceableByMethod && ReplaceableByMethod !in found.value then Ignored
    else if !Meets(found.value, excludes) then Merged
    else if ReplaceableByMethod in found.value then Replaced
    else if IsExempt(found.value, includes) then Merged
    else Conflicting
  }

  /** When a declaration is a new symbol, disappears, joins the symbol, takes its place, or is in conflict. */
  lemma OutcomeMeaning(found: Option<Flags>, includes: Flags, excludes: Flags, isReplaceableByMethod: bool)
    ensures var outcome, clash := Decide(found, includes, excludes, isReplaceableByMethod),
                                  found.Some? && exists f :: f in found.value && f in excludes;
            && (outcome.Created? <==> found.None?)
            && (outcome.Ignored? <==> found.Some? && isReplaceableByMethod && ReplaceableByMethod !in found.value)
            && (outcome.Replaced? <==> clash && ReplaceableByMethod in found.value)
            && (outcome.Conflicting? <==> clash && !isReplaceableByMethod && ReplaceableByMethod !in found.value
                                          && !IsExempt(found.value, includes))
  {
  }

  class SymbolTable {
    var table: map<string, Symbol>
    var diagnostics: seq<Node>
    ghost var symbols: set<Symbol>

    /** Every symbol ever made is sound, and the table finds each by its name. */
    ghost predicate Valid()
      reads this, symbols
    {
      && (forall s :: s in symbols ==> s.Valid())
      && (forall n :: n in table ==> table[n] in symbols && table[n].name == n)
    }

    constructor ()
      ensures Valid() && table == map[] && diagnostics == [] && symbols == {}
    {
      table, diagnostics, symbols := map[], [], {};
    }

    method NewSymbol(name: string, isReplaceableByMethod: bool) returns (s: Symbol)
      requires Valid()
      modifies this`symbols
      ensures Valid() && fresh(s) && symbols == old(symbols) + {s}
      ensures s.name == name && s.merged == [] && !s.widened && s.discardable == isReplaceableByMethod && s.Valid()
    {
      s := new Symbol(name, isReplaceableByMethod);
      symbols := symbols + {s};
    }

    /** Declares a name. The table entry changes only if there was none or it was discardable; of the
        symbols made before, only the one of that name may gain the declaration, and only if compatible
        with it; a conflict is reported at every declaration involved and gets a symbol outside the table. */
    method DeclareSymbol(name: string, r: Request, isReplaceableByMethod: bool)
      returns (symbol: Symbol, ghost outcome: Outcome)
      requires Valid()
      modifies this, symbols
      ensures Valid() && symbol in symbols && fresh(symbols - old(symbols)) && old(symbols) <= symbols
      ensures outcome == Decide(if name in old(table) then Some(old(table[name].flags)) else None, r.includes, r.excludes, isReplaceableByMethod)
      ensures if outcome.Ignored? || outcome.Merged? then symbol == old(table)[name] else fresh(symbol)
      ensures symbol.name == name
      ensures symbol !in old(symbols) ==> !symbol.widened && symbol.discardable == (outcome.Created? && isReplaceableByMethod)
      ensures symbol.merged == (if symbol in old(symbols) then old(symbol.merged) else []) + (if outcome.Ignored? then [] else [r])
      ensures table == if outcome.Created? || outcome.Replaced? then old(table)[name := symbol] else old(table)
      ensures diagnostics == old(diagnostics) + if outcome.Conflicting? then old(table[name].declarations) + [r.node] else []
      ensures forall s :: s in old(symbols) && s != symbol ==> s.merged == old(s.merged)
      ensures forall s :: s in old(symbols) ==>
                s.widened == (old(s.widened) || (outcome.Conflicting? && s == old(table)[name] && Widens(old(s.flags), r.includes)))
    {
      hide Meets, IsExempt, Coherent, Widens, FlagsOf, DeclarationsOf, ValueDeclarationOf, Decide;
      var decided;
      symbol, decided := FindOrCreate(name, r, isReplaceableByMethod);
      outcome := decided;
      if decided != Ignored {
        symbol.AddDeclaration(r);
      }
    }

    /** The symbol that the declaration goes to. */
    method FindOrCreate(name: string, r: Request, isReplaceableByMethod: bool)
      returns (symbol: Symbol, outcome: Outcome)
      requires Valid()
      modifies this, symbols
      ensures Valid() && symbols == old(symbols) + {symbol} && symbol.name == name
      ensures outcome == Decide(if name in old(table) then Some(old(table[name].flags)) else None, r.includes, r.excludes, isReplaceableByMethod)
      ensures if outcome.Ignored? || outcome.Merged? then name in old(table) && symbol == old(table)[name] else fresh(symbol) && symbol.merged == []
      ensures symbol !in old(symbols) ==> !symbol.widened && symbol.discardable == (outcome.Created? && isReplaceableByMethod)
      ensures outcome.Merged? ==> !Meets(FlagsOf(symbol.merged), r.excludes) || IsExempt(FlagsOf(symbol.merged), r.includes)
      ensures table == if outcome.Created? || outcome.Replaced? then old(table)[name := symbol] else old(table)
      ensures diagnostics == old(diagnostics) + if outcome.Conflicting? then old(table[name].declarations) + [r.node] else []
      ensures forall s :: s in old(symbols) ==> s.merged == old(s.merged)
      ensures forall s :: s in old(symbols) ==>
                s.widened == (old(s.widened) || (outcome.Conflicting? && s == old(table)[name] && Widens(old(s.flags), r.includes)))
    {
      hide Meets, IsExempt, Coherent, Widens, FlagsOf, DeclarationsOf, ValueDeclarationOf;
      if name !in table {
        symbol := NewSymbol(name, isReplaceableByMethod);
        table := table[name := symbol];
        return symbol, Created;
      }
      symbol := table[name];
      CompatibleFlags(symbol.flags, FlagsOf(symbol.merged), symbol.Extra(), r);
      if isReplaceableByMethod && ReplaceableByMethod !in symbol.flags {
        return symbol, Ignored;
      }
      outcome := Merged;
      if Meets(symbol.flags, r.excludes) {
        if ReplaceableByMethod in symbol.flags {
          symbol := NewSymbol(name, false);
          table := table[name := symbol];
          outcome := Replaced;
        } else if !IsExempt(symbol.flags, r.includes) {
          symbol := Conflict(symbol, r);
          outcome := Conflicting;
        }
      }
    }

    /** A conflict leaves the earlier symbol in its place. */
    method Conflict(earlier: Symbol, r: Request) returns (symbol: Symbol)
      requires Valid() && earlier in symbols
      modifies this`diagnostics, this`symbols, symbols
      ensures Valid() && fresh(symbol) && symbols == old(symbols) + {symbol} && symbol.name == earlier.name
      ensures symbol.merged == [] && !symbol.widened && !symbol.discardable
      ensures diagnostics == old(diagnostics) + (old(earlier.declarations) + [r.node])
      ensures forall s :: s in old(symbols) ==> s.merged == old(s.merged)
      ensures forall s :: s in old(symbols) ==> s.widened == (old(s.widened) || (s == earlier && Widens(old(s.flags), r.includes)))
    {
      hide Meets, Coherent, Widens, FlagsOf, DeclarationsOf, ValueDeclarationOf;
      ReportConflict(earlier, r.node);
      earlier.Widen(r.includes);
      symbol := NewSymbol(earlier.name, false);
    }

    /** One diagnostic at each earlier declaration and one at the new one. */
    method ReportConflict(symbol: Symbol, n: Node)
      modifies this`diagnostics
      ensures diagnostics == old(diagnostics) + (symbol.declarations + [n])
    {
      var i := 0;
      while i < |symbol.declarations|
        invariant 0 <= i <= |symbol.declarations|
        invariant diagnostics == old(diagnostics) + symbol.declarations[..i]
      {
        diagnostics := diagnostics + [symbol.declarations[i]];
        i := i + 1;
      }
      diagnostics := diagnostics + [n];
    }
  }

  /** A conflict with an accessor marks the symbol as a full accessor. */
  predicate Widens(flags: Flags, includes: Flags) {
    flags * ACCESSOR != {} && flags * ACCESSOR != includes * ACCESSOR
  }

  lemma CompatibleFlags(flags: Flags, base: Flags, extra: Flags, r: Request)
    requires flags == base + extra && extra <= ACCESSOR + {ReplaceableByMethod}
    ensures !Meets(flags, r.excludes) ==> !Meets(base, r.excludes)
    ensures IsExempt(flags, r.includes) == IsExempt(base, r.includes)
  {
  }

  // ----- declarations of one name -----

  /** A declaration of the given kind by a node of its own. */
  function KindRequest(i: nat, k: Kind): Request {
    Request(Node(i, OtherKind(0)), {k}, Excludes(k))
  }

  ghost predicate AreRequests(merged: seq<Request>, kinds: seq<Kind>) {
    |merged| == |kinds| && forall i :: 0 <= i < |kinds| ==> merged[i] == KindRequest(i, kinds[i])
  }

  lemma {:induction false} KindFlags(merged: seq<Request>, kinds: seq<Kind>)
    requires AreRequests(merged, kinds)
    ensures FlagsOf(merged) == Union(kinds)
  {
    hide Meets, Excludes;
    if merged != [] {
      var front, last := kinds[..|kinds| - 1], kinds[|kinds| - 1];
      KindFlags(merged[..|merged| - 1], front);
      assert kinds == front + [last];
      assert Union(kinds) == Union(front) + {last};
    }
  }

  lemma OneMore(kinds: seq<Kind>, i: nat)
    requires i < |kinds|
    ensures ConflictFree(kinds[..i + 1]) <==> ConflictFree(kinds[..i]) && !Meets(Union(kinds[..i]), Excludes(kinds[i]))
  {
    hide Meets, Union, Excludes;
    assert forall j :: 0 <= j <= i ==> kinds[..i + 1][..j] == kinds[..j];
    assert forall j :: 0 <= j <= i ==> kinds[..i][..j] == kinds[..j];
    assert forall j :: 0 <= j < i ==> kinds[..i + 1][j] == kinds[..i][j];
  }

  lemma NotExempt(kinds: seq<Kind>, k: Kind)
    ensures !IsExempt(Union(kinds), {k})
    ensures ReplaceableByMethod !in Union(kinds)
  {
  }

  /** Declaring one name again and again reports nothing exactly if the kinds are free of conflicts, in
      whatever order (SymbolFlags.OrderIndependence); the symbol then has the flags of all of them. */
  method DeclareKinds(t: SymbolTable, name: string, kinds: seq<Kind>)
    requires t.Valid() && name !in t.table
    modifies t, t.symbols
    ensures t.Valid()
    ensures t.diagnostics == old(t.diagnostics) <==> ConflictFree(kinds)
    ensures ConflictFree(kinds) && kinds != [] ==>
              name in t.table && t.table[name].flags == Union(kinds) && AreRequests(t.table[name].merged, kinds)
  {
    hide Meets, IsExempt, ConflictFree, Union, Excludes, FlagsOf, Widens;
    NoKinds();
    assert kinds[..0] == [];
    var i := 0;
    while i < |kinds|
      invariant 0 <= i <= |kinds| && t.Valid() && fresh(t.symbols - old(t.symbols))
      invariant i == 0 ==> name !in t.table
      invariant if ConflictFree(kinds[..i]) then t.diagnostics == old(t.diagnostics) else |t.diagnostics| > |old(t.diagnostics)|
      invariant ConflictFree(kinds[..i]) && i > 0 ==> Accumulated(t, name, kinds[..i])
    {
      DeclareOne(t, name, kinds, i);
      i := i + 1;
    }
    assert kinds[..|kinds|] == kinds;
    if kinds != [] && ConflictFree(kinds) {
      KindFlags(t.table[name].merged, kinds);
    }
  }

  lemma NoKinds()
    ensures ConflictFree([])
  {
  }

  ghost predicate Accumulated(t: SymbolTable, name: string, kinds: seq<Kind>)
    reads t, t.table.Values
  {
    && name in t.table && AreRequests(t.table[name].merged, kinds)
    && !t.table[name].widened && !t.table[name].discardable
  }

  lemma AccumulatedFlags(t: SymbolTable, name: string, kinds: seq<Kind>)
    requires t.Valid() && Accumulated(t, name, kinds)
    ensures t.table[name] in t.symbols && t.table[name].flags == Union(kinds)
  {
    KindFlags(t.table[name].merged, kinds);
  }

  lemma DecideKind(found: Option<Flags>, kinds: seq<Kind>, k: Kind)
    ensures found == Some(Union(kinds)) ==>
              Decide(found, {k}, Excludes(k), false) == if Meets(Union(kinds), Excludes(k)) then Conflicting else Merged
    ensures !Decide(found, {k}, Excludes(k), false).Ignored?
    ensures Decide(found, {k}, Excludes(k), false).Created? <==> found.None?
    ensures kinds == [] ==> !Meets(Union(kinds), Excludes(k))
  {
    hide Excludes;
    NotExempt(kinds, k);
  }

  method DeclareOne(t: SymbolTable, name: string, kinds: seq<Kind>, i: nat)
    requires t.Valid() && i < |kinds| && (i == 0 ==> name !in t.table)
    requires ConflictFree(kinds[..i]) && i > 0 ==> Accumulated(t, name, kinds[..i])
    modifies t, t.symbols
    ensures t.Valid() && fresh(t.symbols - old(t.symbols))
    ensures |t.diagnostics| >= |old(t.diagnostics)| && name in t.table
    ensures ConflictFree(kinds[..i + 1]) ==> ConflictFree(kinds[..i])
    ensures ConflictFree(kinds[..i]) ==>
              if ConflictFree(kinds[..i + 1]) then t.diagnostics == old(t.diagnostics) && Accumulated(t, name, kinds[..i + 1])
              else |t.diagnostics| > |old(t.diagnostics)|
  {
    hide Meets, IsExempt, ConflictFree, Union, Excludes, FlagsOf, Widens, Decide, Symbol.Valid, SymbolTable.Valid;
    OneMore(kinds, i);
    var r := KindRequest(i, kinds[i]);
    ghost var found := if name in t.table then Some(t.table[name].flags) else None;
    if ConflictFree(kinds[..i]) && i > 0 {
      AccumulatedFlags(t, name, kinds[..i]);
    }
    DecideKind(found, kinds[..i], kinds[i]);
    var symbol, outcome := t.DeclareSymbol(name, r, false);
  }
}
