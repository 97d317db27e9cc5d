/** The flags of symbols, as sets of the named bits, and what each kind of declaration may not be declared
    alongside. */
module SymbolFlags {

  datatype Flag =
    | FunctionScopedVariable | BlockScopedVariable | Property | EnumMember | Function | Class | Interface
    | ConstEnum | RegularEnum | ValueModule | NamespaceModule | TypeLiteral | ObjectLiteral | Method
    | Constructor | GetAccessor | SetAccessor | Signature | TypeParameter | TypeAlias | ExportValue | Alias
    | Prototype | ExportStar | Optional | Transient | Assignment | ModuleExports | ConstEnumOnlyModule
    | ReplaceableByMethod | GlobalLookup

  type Flags = set<Flag>

  const ENUM: Flags := {RegularEnum, ConstEnum}
  const VARIABLE: Flags := {FunctionScopedVariable, BlockScopedVariable}
  const VALUE: Flags := VARIABLE + {Property, EnumMember, ObjectLiteral, Function, Class} + ENUM
                        + {ValueModule, Method, GetAccessor, SetAccessor}
  const TYPE: Flags := {Class, Interface} + ENUM + {EnumMember, TypeLiteral, TypeParameter, TypeAlias}
  const ACCESSOR: Flags := {GetAccessor, SetAccessor}

  /** The flags have a bit in common. */
  predicate Meets(a: Flags, b: Flags) {
    exists f :: f in a && f in b
  }

  /** A kind of declaration that merges by the table of excludes alone: its flag. */
  predicate IsKind(f: Flag) {
    f in {FunctionScopedVariable, BlockScopedVariable, Function, Class, Interface, RegularEnum, ConstEnum,
          ValueModule, NamespaceModule, TypeAlias}
  }

  type Kind = f: Flag | IsKind(f) witness Function

  function Excludes(k: Kind): Flags {
    match k
    case FunctionScopedVariable => VALUE - {FunctionScopedVariable}
    case BlockScopedVariable => VALUE
    case Function => VALUE - {Function, ValueModule, Class}
    case Class => (VALUE + TYPE) - {ValueModule, Interface, Function}
    case Interface => TYPE - {Interface, Class}
    case RegularEnum => (VALUE + TYPE) - {RegularEnum, ValueModule}
    case ConstEnum => (VALUE + TYPE) - {ConstEnum}
    case ValueModule => VALUE - {Function, Class, RegularEnum, ValueModule}
    case NamespaceModule => {}
    case TypeAlias => TYPE
  }

  predicate Compatible(earlier: Kind, later: Kind) {
    earlier !in Excludes(later)
  }

  /** What a kind merges with, whichever comes first. */
  function Partners(k: Kind): Flags {
    match k
    case FunctionScopedVariable => {FunctionScopedVariable, Interface, NamespaceModule, TypeAlias}
    case BlockScopedVariable => {Interface, NamespaceModule, TypeAlias}
    case Function => {Function, ValueModule, Class, Interface, NamespaceModule, TypeAlias}
    case Class => {ValueModule, Interface, Function, NamespaceModule}
    case Interface => {FunctionScopedVariable, BlockScopedVariable, Function, Class, Interface, ValueModule, NamespaceModule}
    case RegularEnum => {RegularEnum, ValueModule, NamespaceModule}
    case ConstEnum => {ConstEnum, NamespaceModule}
    case ValueModule => {Function, Class, Interface, RegularEnum, ValueModule, NamespaceModule, TypeAlias}
    case NamespaceModule => {FunctionScopedVariable, BlockScopedVariable, Function, Class, Interface, RegularEnum, ConstEnum,
                             ValueModule, NamespaceModule, TypeAlias}
    case TypeAlias => {FunctionScopedVariable, BlockScopedVariable, Function, ValueModule, NamespaceModule}
  }

  lemma CompatiblePartners(a: Kind, b: Kind)
    ensures Compatible(a, b) <==> a in Partners(b)
  {
  }

  /** Which of two declarations comes first does not matter. */
  lemma CompatibleSymmetric(a: Kind, b: Kind)
    ensures Compatible(a, b) <==> Compatible(b, a)
  {
    hide Compatible;
    CompatiblePartners(a, b);
    CompatiblePartners(b, a);
  }

  function Union(kinds: seq<Kind>): Flags {
    set k: Kind | k in kinds
  }

  /** Each declaration is compatible with the flags accumulated by those before it. */
  ghost predicate ConflictFree(kinds: seq<Kind>) {
    forall i :: 0 <= i < |kinds| ==> !Meets(Union(kinds[..i]), Excludes(kinds[i]))
  }

  ghost predicate PairwiseCompatible(kinds: seq<Kind>) {
    forall i, j :: 0 <= i < j < |kinds| ==> Compatible(kinds[i], kinds[j])
  }

  lemma UnionMeets(kinds: seq<Kind>, k: Kind)
    ensures Meets(Union(kinds), Excludes(k)) <==> exists i :: 0 <= i < |kinds| && !Compatible(kinds[i], k)
  {
    hide Excludes;
    if i :| 0 <= i < |kinds| && !Compatible(kinds[i], k) {
      assert kinds[i] in Union(kinds) && kinds[i] in Excludes(k);
    }
  }

  lemma ConflictFreeIsPairwise(kinds: seq<Kind>)
    ensures ConflictFree(kinds) <==> PairwiseCompatible(kinds)
  {
    hide Union, Meets, Compatible, Excludes;
    forall j | 0 <= j < |kinds|
      ensures Meets(Union(kinds[..j]), Excludes(kinds[j])) <==> exists i :: 0 <= i < j && !Compatible(kinds[i], kinds[j])
    {
      UnionMeets(kinds[..j], kinds[j]);
      assert forall i :: 0 <= i < j ==> kinds[..j][i] == kinds[i];
    }
  }

  /** Pairwise compatibility depends on how often each kind occurs, not on where. */
  ghost predicate BagCompatible(bag: multiset<Kind>) {
    && (forall a, b :: a in bag && b in bag && a != b ==> Compatible(a, b))
    && (forall a :: bag[a] >= 2 ==> Compatible(a, a))
  }

  lemma OccursTwice(kinds: seq<Kind>, i: nat, j: nat)
    requires i < j < |kinds| && kinds[i] == kinds[j]
    ensures multiset(kinds)[kinds[i]] >= 2
  {
    assert kinds == kinds[..j] + [kinds[j]] + kinds[j + 1..];
    assert kinds[i] in kinds[..j];
  }

  lemma {:induction false} FindTwo(kinds: seq<Kind>, a: Kind) returns (i: nat, j: nat)
    requires multiset(kinds)[a] >= 2
    ensures i < j < |kinds| && kinds[i] == kinds[j] == a
  {
    var front, last := kinds[..|kinds| - 1], kinds[|kinds| - 1];
    assert kinds == front + [last];
    if last == a {
      assert multiset(front)[a] >= 1;
      assert a in front;
      i :| 0 <= i < |front| && front[i] == a;
      j := |kinds| - 1;
    } else {
      assert multiset(front)[a] >= 2;
      i, j := FindTwo(front, a);
    }
  }

  lemma PairwiseIsBag(kinds: seq<Kind>)
    ensures PairwiseCompatible(kinds) <==> BagCompatible(multiset(kinds))
  {
    hide Compatible;
    if PairwiseCompatible(kinds) {
      forall a, b | a in multiset(kinds) && b in multiset(kinds) && a != b
        ensures Compatible(a, b)
      {
        var i :| 0 <= i < |kinds| && kinds[i] == a;
        var j :| 0 <= j < |kinds| && kinds[j] == b;
        CompatibleSymmetric(a, b);
      }
      forall a | multiset(kinds)[a] >= 2
        ensures Compatible(a, a)
      {
        var i, j := FindTwo(kinds, a);
      }
    }
    if BagCompatible(multiset(kinds)) {
      forall i, j | 0 <= i < j < |kinds|
        ensures Compatible(kinds[i], kinds[j])
      {
        if kinds[i] == kinds[j] {
          OccursTwice(kinds, i, j);
        } else {
          assert kinds[i] in multiset(kinds) && kinds[j] in multiset(kinds);
        }
      }
    }
  }

  /** Whether declarations of one name conflict, and the flags they merge to, do not depend on their
      order. */
  lemma OrderIndependence(a: seq<Kind>, b: seq<Kind>)
    requires multiset(a) == multiset(b)
    ensures ConflictFree(a) <==> ConflictFree(b)
    ensures Union(a) == Union(b)
  {
    hide ConflictFree, PairwiseCompatible, BagCompatible;
    ConflictFreeIsPairwise(a);
    ConflictFreeIsPairwise(b);
    PairwiseIsBag(a);
    PairwiseIsBag(b);
    forall k: Kind
      ensures k in a <==> k in b
    {
      assert k in multiset(a) <==> k in multiset(b);
    }
  }
}
