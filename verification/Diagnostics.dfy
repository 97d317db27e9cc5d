/** The order of diagnostics: a lexicographic comparison of trees, and the collection that keeps its
    buckets sorted by it and searches them by halving. */
module Diagnostics {
  import opened Wrappers

  datatype Diagnostic = Diagnostic(
    file: Option<string>, // the name of the file, if the diagnostic is about one
    pos: int, end: int, code: int, message: string,
    messageChain: seq<Diagnostic>,
    relatedInformation: seq<Diagnostic>)

  function Path(d: Diagnostic): string {
    if d.file.Some? then d.file.value else ""
  }

  // ----- comparisons -----

  /** The first difference decides. */
  function Then(c: int, d: int): int {
    if c != 0 then c else d
  }

  function CompareStrings(a: string, b: string): int {
    if a == [] then (if b == [] then 0 else -1)
    else if b == [] then 1
    else if a[0] != b[0] then (if a[0] < b[0] then -1 else 1)
    else CompareStrings(a[1..], b[1..])
  }

  /** Longer chains come first, then those with longer chains inside. */
  function CompareSize(c1: seq<Diagnostic>, c2: seq<Diagnostic>): int
    decreases c1, 1
  {
    if |c1| != |c2| then |c2| - |c1| else CompareSizes(c1, c2)
  }

  function CompareSizes(c1: seq<Diagnostic>, c2: seq<Diagnostic>): int
    requires |c1| == |c2|
    decreases c1, 0
  {
    if c1 == [] then 0
    else Then(CompareSize(c1[0].messageChain, c2[0].messageChain), CompareSizes(c1[1..], c2[1..]))
  }

  lemma SameSize(c1: seq<Diagnostic>, c2: seq<Diagnostic>)
    requires CompareSize(c1, c2) == 0
    ensures |c1| == |c2|
    ensures c1 != [] ==> CompareSize(c1[0].messageChain, c2[0].messageChain) == 0 && CompareSize(c1[1..], c2[1..]) == 0
  {
    assert CompareSizes(c1, c2) == 0;
  }

  /** Chains of the same size, so that none runs out before the other. */
  function CompareContent(c1: seq<Diagnostic>, c2: seq<Diagnostic>): int
    requires CompareSize(c1, c2) == 0
    decreases c1
  {
    SameSize(c1, c2);
    if c1 == [] then 0
    else
      Then(CompareStrings(c1[0].message, c2[0].message),
           Then(CompareContent(c1[0].messageChain, c2[0].messageChain), CompareContent(c1[1..], c2[1..])))
  }

  function CompareHeads(d1: Diagnostic, d2: Diagnostic): int {
    Then(CompareStrings(Path(d1), Path(d2)),
         Then(d1.pos - d2.pos, Then(d1.end - d2.end, Then(d1.code - d2.code, CompareStrings(d1.message, d2.message)))))
  }

  function CompareChains(c1: seq<Diagnostic>, c2: seq<Diagnostic>): int {
    if CompareSize(c1, c2) != 0 then CompareSize(c1, c2) else CompareContent(c1, c2)
  }

  function Compare(d1: Diagnostic, d2: Diagnostic): int
    decreases d1, 1
  {
    Then(CompareHeads(d1, d2),
         Then(CompareChains(d1.messageChain, d2.messageChain), CompareRelated(d1.relatedInformation, d2.relatedInformation)))
  }

  function CompareRelated(r1: seq<Diagnostic>, r2: seq<Diagnostic>): int
    decreases r1, 1
  {
    if |r1| != |r2| then |r2| - |r1| else CompareEach(r1, r2)
  }

  function CompareEach(r1: seq<Diagnostic>, r2: seq<Diagnostic>): int
    requires |r1| == |r2|
    decreases r1, 0
  {
    if r1 == [] then 0 else Then(Compare(r1[0], r2[0]), CompareEach(r1[1..], r2[1..]))
  }

  // ----- what comes first -----

  /** At the first place where they differ `a` has the smaller character, or `a` is a proper prefix of `b`. */
  ghost predicate StringBefore(a: string, b: string) {
    exists k :: 0 <= k <= |a| && FirstDifference(a, b, k) && (k == |a| || a[k] < b[k])
  }

  predicate FirstDifference(a: string, b: string, k: nat) {
    k <= |a| && k < |b| && a[..k] == b[..k] && (k < |a| ==> a[k] != b[k])
  }

  lemma OnlyFirst(a: string, b: string)
    requires a != [] && b != [] && a[0] != b[0]
    ensures forall k: nat :: FirstDifference(a, b, k) ==> k == 0
  {
    forall k: nat | k > 0
      ensures !FirstDifference(a, b, k)
    {
      if 0 < k <= |a| && k <= |b| {
        assert a[..k][0] != b[..k][0];
      }
    }
  }

  lemma {:induction false} StringsMeaning(a: string, b: string)
    ensures CompareStrings(a, b) < 0 <==> StringBefore(a, b)
  {
    if b == [] {
    } else if a == [] {
      assert FirstDifference(a, b, 0);
    } else if a[0] != b[0] {
      assert FirstDifference(a, b, 0);
      OnlyFirst(a, b);
    } else {
      StringsMeaning(a[1..], b[1..]);
      if k :| 0 <= k <= |a| && FirstDifference(a, b, k) && (k == |a| || a[k] < b[k]) {
        assert k > 0;
        assert a[1..][..k - 1] == a[..k][1..] && b[1..][..k - 1] == b[..k][1..];
        assert FirstDifference(a[1..], b[1..], k - 1);
      }
      if k :| 0 <= k <= |a[1..]| && FirstDifference(a[1..], b[1..], k) && (k == |a[1..]| || a[1..][k] < b[1..][k]) {
        assert a[..k + 1] == [a[0]] + a[1..][..k] && b[..k + 1] == [b[0]] + b[1..][..k];
        assert FirstDifference(a, b, k + 1);
      }
    }
  }

  /** A diagnostic comes before another by the path of its file, then by its smaller position, its smaller
      end, its smaller code, its message, the order of the chains, and that of the related information. */
  ghost predicate Before(a: Diagnostic, b: Diagnostic)
    decreases a, 1
  {
    if Path(a) != Path(b) then StringBefore(Path(a), Path(b))
    else if a.pos != b.pos then a.pos < b.pos
    else if a.end != b.end then a.end < b.end
    else if a.code != b.code then a.code < b.code
    else if a.message != b.message then StringBefore(a.message, b.message)
    else if CompareChains(a.messageChain, b.messageChain) != 0 then ChainsBefore(a.messageChain, b.messageChain)
    else RelatedBefore(a.relatedInformation, b.relatedInformation)
  }

  /** The one with more related information first, and otherwise by the first that comes before another. */
  ghost predicate RelatedBefore(a: seq<Diagnostic>, b: seq<Diagnostic>)
    decreases a, 0
  {
    || |a| > |b|
    || (|a| == |b| && exists k :: 0 <= k < |a| && Before(a[k], b[k]) && forall i :: 0 <= i < k ==> Compare(a[i], b[i]) == 0)
  }

  /** The longer chain first, then by the first message whose own chain is longer in this sense; chains of
      one size by the first message that differs, a message before the chain below it. */
  ghost predicate ChainsBefore(a: seq<Diagnostic>, b: seq<Diagnostic>) {
    if CompareSize(a, b) != 0 then SizeBefore(a, b) else ContentBefore(a, b)
  }

  ghost predicate SizeBefore(a: seq<Diagnostic>, b: seq<Diagnostic>)
    decreases a
  {
    || |a| > |b|
    || (|a| == |b| && exists k ::
          && 0 <= k < |a| && SizeBefore(a[k].messageChain, b[k].messageChain)
          && forall i :: 0 <= i < k ==> CompareSize(a[i].messageChain, b[i].messageChain) == 0)
  }

  lemma {:induction false} SizeMeaning(a: seq<Diagnostic>, b: seq<Diagnostic>)
    ensures CompareSize(a, b) < 0 <==> SizeBefore(a, b)
    decreases a, 1
  {
    if |a| == |b| {
      forall k | 0 <= k < |a|
        ensures CompareSize(a[k].messageChain, b[k].messageChain) < 0 <==> SizeBefore(a[k].messageChain, b[k].messageChain)
      {
        SizeMeaning(a[k].messageChain, b[k].messageChain);
      }
      SizesMeaning(a, b);
      if k: nat :| FirstSmaller(a, b, k) {
        assert SizeBefore(a[k].messageChain, b[k].messageChain);
      }
      if SizeBefore(a, b) {
        var k :| 0 <= k < |a| && SizeBefore(a[k].messageChain, b[k].messageChain)
                 && forall i :: 0 <= i < k ==> CompareSize(a[i].messageChain, b[i].messageChain) == 0;
        assert FirstSmaller(a, b, k);
      }
    }
  }

  ghost predicate FirstSmaller(a: seq<Diagnostic>, b: seq<Diagnostic>, k: nat)
    requires |a| == |b|
  {
    && k < |a| && CompareSize(a[k].messageChain, b[k].messageChain) < 0
    && forall i :: 0 <= i < k ==> CompareSize(a[i].messageChain, b[i].messageChain) == 0
  }

  lemma {:induction false} SizesMeaning(a: seq<Diagnostic>, b: seq<Diagnostic>)
    requires |a| == |b|
    ensures CompareSizes(a, b) < 0 <==> exists k :: FirstSmaller(a, b, k)
    decreases a, 0
  {
    hide CompareSize;
    if a != [] {
      SizesMeaning(a[1..], b[1..]);
      if CompareSize(a[0].messageChain, b[0].messageChain) < 0 {
        assert FirstSmaller(a, b, 0);
      }
      if k: nat :| FirstSmaller(a[1..], b[1..], k) && CompareSize(a[0].messageChain, b[0].messageChain) == 0 {
        assert FirstSmaller(a, b, k + 1);
      }
      if k: nat :| FirstSmaller(a, b, k) && k > 0 {
        assert FirstSmaller(a[1..], b[1..], k - 1);
      }
    }
  }

  /** Chains of one size: by the first message that differs, where a message comes before its own chain. */
  ghost predicate ContentBefore(a: seq<Diagnostic>, b: seq<Diagnostic>)
    requires CompareSize(a, b) == 0
    decreases a
  {
    a != [] &&
    (SameSize(a, b);
     if a[0].message != b[0].message then StringBefore(a[0].message, b[0].message)
     else if CompareContent(a[0].messageChain, b[0].messageChain) != 0 then
       ContentBefore(a[0].messageChain, b[0].messageChain)
     else ContentBefore(a[1..], b[1..]))
  }

  lemma {:induction false} ContentMeaning(a: seq<Diagnostic>, b: seq<Diagnostic>)
    requires CompareSize(a, b) == 0
    ensures CompareContent(a, b) < 0 <==> ContentBefore(a, b)
    decreases a
  {
    hide CompareStrings, StringBefore;
    SameSize(a, b);
    if a != [] {
      StringsMeaning(a[0].message, b[0].message);
      StringsEqual(a[0].message, b[0].message);
      ContentMeaning(a[0].messageChain, b[0].messageChain);
      ContentMeaning(a[1..], b[1..]);
    }
  }

  lemma ChainsMeaning(a: seq<Diagnostic>, b: seq<Diagnostic>)
    ensures CompareChains(a, b) < 0 <==> ChainsBefore(a, b)
  {
    hide SizeBefore, CompareSize, CompareContent, ContentBefore;
    SizeMeaning(a, b);
    if CompareSize(a, b) == 0 {
      ContentMeaning(a, b);
    }
  }

  /** The comparison is this order. */
  lemma {:induction false} CompareMeaning(a: Diagnostic, b: Diagnostic)
    ensures Compare(a, b) < 0 <==> Before(a, b)
    decreases a, 2
  {
    hide CompareStrings, StringBefore, CompareChains, ChainsBefore;
    StringsMeaning(Path(a), Path(b));
    StringsEqual(Path(a), Path(b));
    StringsMeaning(a.message, b.message);
    StringsEqual(a.message, b.message);
    ChainsMeaning(a.messageChain, b.messageChain);
    RelatedMeaning(a.relatedInformation, b.relatedInformation);
  }

  ghost predicate FirstBefore(a: seq<Diagnostic>, b: seq<Diagnostic>, k: nat)
    requires |a| == |b|
  {
    k < |a| && Compare(a[k], b[k]) < 0 && forall i :: 0 <= i < k ==> Compare(a[i], b[i]) == 0
  }

  lemma {:induction false} RelatedMeaning(a: seq<Diagnostic>, b: seq<Diagnostic>)
    ensures CompareRelated(a, b) < 0 <==> RelatedBefore(a, b)
    decreases a, 1
  {
    hide Compare, Before;
    if |a| == |b| {
      forall k | 0 <= k < |a|
        ensures Compare(a[k], b[k]) < 0 <==> Before(a[k], b[k])
      {
        CompareMeaning(a[k], b[k]);
      }
      EachMeaning(a, b);
      if k: nat :| FirstBefore(a, b, k) {
        assert Before(a[k], b[k]);
      }
      if RelatedBefore(a, b) {
        var k :| 0 <= k < |a| && Before(a[k], b[k]) && forall i :: 0 <= i < k ==> Compare(a[i], b[i]) == 0;
        assert FirstBefore(a, b, k);
      }
    }
  }

  lemma {:induction false} EachMeaning(a: seq<Diagnostic>, b: seq<Diagnostic>)
    requires |a| == |b|
    ensures CompareEach(a, b) < 0 <==> exists k :: FirstBefore(a, b, k)
    decreases a, 0
  {
    hide Compare;
    if a != [] {
      EachMeaning(a[1..], b[1..]);
      if Compare(a[0], b[0]) < 0 {
        assert FirstBefore(a, b, 0);
      }
      if k: nat :| FirstBefore(a[1..], b[1..], k) && Compare(a[0], b[0]) == 0 {
        assert FirstBefore(a, b, k + 1);
      }
      if k: nat :| FirstBefore(a, b, k) && k > 0 {
        assert FirstBefore(a[1..], b[1..], k - 1);
      }
    }
  }

  // ----- order laws -----

  /** Comparing the other way round gives the other sign. */
  predicate Opposite(ab: int, ba: int) {
    (ab < 0 <==> ba > 0) && (ab > 0 <==> ba < 0)
  }

  /** Before and before is before, and strictly so if either is. */
  predicate Transitive(ab: int, bc: int, ac: int) {
    ab <= 0 && bc <= 0 ==> ac <= 0 && (ab < 0 || bc < 0 ==> ac < 0)
  }

  lemma {:induction false} StringsOpposite(a: string, b: string)
    ensures Opposite(CompareStrings(a, b), CompareStrings(b, a))
  {
    if a != [] && b != [] && a[0] == b[0] {
      StringsOpposite(a[1..], b[1..]);
    }
  }

  lemma {:induction false} StringsTransitive(a: string, b: string, c: string)
    ensures Transitive(CompareStrings(a, b), CompareStrings(b, c), CompareStrings(a, c))
  {
    if a != [] && b != [] && c != [] && a[0] == b[0] == c[0] {
      StringsTransitive(a[1..], b[1..], c[1..]);
    }
  }

  lemma {:induction false} StringsEqual(a: string, b: string)
    ensures CompareStrings(a, b) == 0 <==> a == b
  {
    if a != [] && b != [] && a[0] == b[0] {
      StringsEqual(a[1..], b[1..]);
      assert a == [a[0]] + a[1..] && b == [b[0]] + b[1..];
    }
  }

  lemma {:induction false} SizeOpposite(a: seq<Diagnostic>, b: seq<Diagnostic>)
    ensures Opposite(CompareSize(a, b), CompareSize(b, a))
    decreases a, 1
  {
    if |a| == |b| {
      SizesOpposite(a, b);
    }
  }

  lemma {:induction false} SizesOpposite(a: seq<Diagnostic>, b: seq<Diagnostic>)
    requires |a| == |b|
    ensures Opposite(CompareSizes(a, b), CompareSizes(b, a))
    decreases a, 0
  {
    if a != [] {
      SizeOpposite(a[0].messageChain, b[0].messageChain);
      SizesOpposite(a[1..], b[1..]);
    }
  }

  lemma {:induction false} SizeTransitive(a: seq<Diagnostic>, b: seq<Diagnostic>, c: seq<Diagnostic>)
    ensures Transitive(CompareSize(a, b), CompareSize(b, c), CompareSize(a, c))
    decreases a, 1
  {
    if |a| == |b| == |c| {
      SizesTransitive(a, b, c);
    }
  }

  lemma {:induction false} SizesTransitive(a: seq<Diagnostic>, b: seq<Diagnostic>, c: seq<Diagnostic>)
    requires |a| == |b| == |c|
    ensures Transitive(CompareSizes(a, b), CompareSizes(b, c), CompareSizes(a, c))
    decreases a, 0
  {
    if a != [] {
      SizeTransitive(a[0].messageChain, b[0].messageChain, c[0].messageChain);
      SizesTransitive(a[1..], b[1..], c[1..]);
    }
  }

  lemma {:induction false} ContentOpposite(a: seq<Diagnostic>, b: seq<Diagnostic>)
    requires CompareSize(a, b) == 0 && CompareSize(b, a) == 0
    ensures Opposite(CompareContent(a, b), CompareContent(b, a))
    decreases a
  {
    if a != [] {
      StringsOpposite(a[0].message, b[0].message);
      ContentOpposite(a[0].messageChain, b[0].messageChain);
      ContentOpposite(a[1..], b[1..]);
    }
  }

  lemma {:induction false} ContentTransitive(a: seq<Diagnostic>, b: seq<Diagnostic>, c: seq<Diagnostic>)
    requires CompareSize(a, b) == 0 && CompareSize(b, c) == 0 && CompareSize(a, c) == 0
    ensures Transitive(CompareContent(a, b), CompareContent(b, c), CompareContent(a, c))
    decreases a
  {
    if a != [] {
      StringsTransitive(a[0].message, b[0].message, c[0].message);
      ContentTransitive(a[0].messageChain, b[0].messageChain, c[0].messageChain);
      ContentTransitive(a[1..], b[1..], c[1..]);
    }
  }

  lemma ChainsOpposite(a: seq<Diagnostic>, b: seq<Diagnostic>)
    ensures Opposite(CompareChains(a, b), CompareChains(b, a))
  {
    hide CompareSize, CompareContent;
    SizeOpposite(a, b);
    if CompareSize(a, b) == 0 {
      ContentOpposite(a, b);
    }
  }

  lemma ChainsTransitive(a: seq<Diagnostic>, b: seq<Diagnostic>, c: seq<Diagnostic>)
    ensures Transitive(CompareChains(a, b), CompareChains(b, c), CompareChains(a, c))
  {
    hide CompareSize, CompareContent;
    SizeTransitive(a, b, c);
    if CompareSize(a, b) == 0 && CompareSize(b, c) == 0 && CompareSize(a, c) == 0 {
      ContentTransitive(a, b, c);
    }
  }

  lemma HeadsOpposite(a: Diagnostic, b: Diagnostic)
    ensures Opposite(CompareHeads(a, b), CompareHeads(b, a))
  {
    hide CompareStrings, Path;
    StringsOpposite(Path(a), Path(b));
    StringsOpposite(a.message, b.message);
  }

  lemma HeadsTransitive(a: Diagnostic, b: Diagnostic, c: Diagnostic)
    ensures Transitive(CompareHeads(a, b), CompareHeads(b, c), CompareHeads(a, c))
  {
    hide CompareStrings, Path;
    StringsTransitive(Path(a), Path(b), Path(c));
    StringsTransitive(a.message, b.message, c.message);
  }

  lemma {:induction false} CompareOpposite(a: Diagnostic, b: Diagnostic)
    ensures Opposite(Compare(a, b), Compare(b, a))
    decreases a, 1
  {
    hide CompareHeads, CompareChains;
    HeadsOpposite(a, b);
    ChainsOpposite(a.messageChain, b.messageChain);
    if |a.relatedInformation| == |b.relatedInformation| {
      EachOpposite(a.relatedInformation, b.relatedInformation);
    }
  }

  lemma {:induction false} EachOpposite(a: seq<Diagnostic>, b: seq<Diagnostic>)
    requires |a| == |b|
    ensures Opposite(CompareEach(a, b), CompareEach(b, a))
    decreases a, 0
  {
    if a != [] {
      CompareOpposite(a[0], b[0]);
      EachOpposite(a[1..], b[1..]);
    }
  }

  /** With CompareOpposite: the comparison is a total preorder. */
  lemma {:induction false} CompareTransitive(a: Diagnostic, b: Diagnostic, c: Diagnostic)
    ensures Transitive(Compare(a, b), Compare(b, c), Compare(a, c))
    decreases a, 1
  {
    hide CompareHeads, CompareChains;
    HeadsTransitive(a, b, c);
    ChainsTransitive(a.messageChain, b.messageChain, c.messageChain);
    if |a.relatedInformation| == |b.relatedInformation| == |c.relatedInformation| {
      EachTransitive(a.relatedInformation, b.relatedInformation, c.relatedInformation);
    }
  }

  lemma {:induction false} EachTransitive(a: seq<Diagnostic>, b: seq<Diagnostic>, c: seq<Diagnostic>)
    requires |a| == |b| == |c|
    ensures Transitive(CompareEach(a, b), CompareEach(b, c), CompareEach(a, c))
    decreases a, 0
  {
    if a != [] {
      CompareTransitive(a[0], b[0], c[0]);
      EachTransitive(a[1..], b[1..], c[1..]);
    }
  }

  // ----- equality -----

  function EqualMessageChains(c1: seq<Diagnostic>, c2: seq<Diagnostic>): bool
    decreases c1
  {
    |c1| == |c2| && (c1 == [] ||
      (c1[0].code == c2[0].code && c1[0].message == c2[0].message
       && EqualMessageChains(c1[0].messageChain, c2[0].messageChain) && EqualMessageChains(c1[1..], c2[1..])))
  }

  predicate EqualDiagnosticsNoRelatedInfo(d1: Diagnostic, d2: Diagnostic) {
    && Path(d1) == Path(d2) && d1.pos == d2.pos && d1.end == d2.end && d1.code == d2.code && d1.message == d2.message
    && EqualMessageChains(d1.messageChain, d2.messageChain)
  }

  predicate EqualDiagnostics(d1: Diagnostic, d2: Diagnostic)
    decreases d1, 1
  {
    EqualDiagnosticsNoRelatedInfo(d1, d2) && EqualEach(d1.relatedInformation, d2.relatedInformation)
  }

  predicate EqualEach(r1: seq<Diagnostic>, r2: seq<Diagnostic>)
    decreases r1, 0
  {
    |r1| == |r2| && (r1 == [] || (EqualDiagnostics(r1[0], r2[0]) && EqualEach(r1[1..], r2[1..])))
  }

  /** The codes inside the message chains, which the comparison does not look at, agree. */
  predicate ChainCodesAgree(c1: seq<Diagnostic>, c2: seq<Diagnostic>)
    requires CompareSize(c1, c2) == 0
    decreases c1
  {
    SameSize(c1, c2);
    c1 == [] || (c1[0].code == c2[0].code && ChainCodesAgree(c1[0].messageChain, c2[0].messageChain) && ChainCodesAgree(c1[1..], c2[1..]))
  }

  lemma SameRelated(d1: Diagnostic, d2: Diagnostic)
    requires Compare(d1, d2) == 0
    ensures CompareSize(d1.messageChain, d2.messageChain) == 0
    ensures |d1.relatedInformation| == |d2.relatedInformation|
    ensures CompareEach(d1.relatedInformation, d2.relatedInformation) == 0
  {
    assert CompareRelated(d1.relatedInformation, d2.relatedInformation) == 0;
  }

  predicate CodesAgree(d1: Diagnostic, d2: Diagnostic)
    requires Compare(d1, d2) == 0
    decreases d1, 1
  {
    SameRelated(d1, d2);
    ChainCodesAgree(d1.messageChain, d2.messageChain) && EachCodesAgree(d1.relatedInformation, d2.relatedInformation)
  }

  predicate EachCodesAgree(r1: seq<Diagnostic>, r2: seq<Diagnostic>)
    requires |r1| == |r2| && CompareEach(r1, r2) == 0
    decreases r1, 0
  {
    r1 == [] || (CodesAgree(r1[0], r2[0]) && EachCodesAgree(r1[1..], r2[1..]))
  }

  lemma ChainsStep(c1: seq<Diagnostic>, c2: seq<Diagnostic>)
    requires |c1| == |c2| > 0
    ensures CompareChains(c1, c2) == 0 <==>
              CompareStrings(c1[0].message, c2[0].message) == 0 && CompareChains(c1[0].messageChain, c2[0].messageChain) == 0
              && CompareChains(c1[1..], c2[1..]) == 0
  {
    hide CompareStrings;
    assert CompareSize(c1, c2) == Then(CompareSize(c1[0].messageChain, c2[0].messageChain), CompareSizes(c1[1..], c2[1..]));
    assert CompareSize(c1[1..], c2[1..]) == CompareSizes(c1[1..], c2[1..]);
  }

  lemma {:induction false} EqualChains(c1: seq<Diagnostic>, c2: seq<Diagnostic>)
    ensures EqualMessageChains(c1, c2) <==> CompareChains(c1, c2) == 0 && ChainCodesAgree(c1, c2)
    decreases c1
  {
    if |c1| != |c2| {
      assert CompareSize(c1, c2) != 0;
    } else if c1 == [] {
      assert CompareSizes(c1, c2) == 0;
    } else {
      ChainsStep(c1, c2);
      StringsEqual(c1[0].message, c2[0].message);
      EqualChains(c1[0].messageChain, c2[0].messageChain);
      EqualChains(c1[1..], c2[1..]);
      assert EqualMessageChains(c1, c2) <==>
        (c1[0].code == c2[0].code && c1[0].message == c2[0].message
        && EqualMessageChains(c1[0].messageChain, c2[0].messageChain) && EqualMessageChains(c1[1..], c2[1..]));
    }
  }

  /** Equal diagnostics are those that compare as equal and agree on the codes in their chains. */
  lemma {:induction false} EqualMeansCompareZero(d1: Diagnostic, d2: Diagnostic)
    ensures EqualDiagnostics(d1, d2) <==> Compare(d1, d2) == 0 && CodesAgree(d1, d2)
    decreases d1, 1
  {
    hide CompareStrings, CompareChains, EqualMessageChains, Path;
    StringsEqual(Path(d1), Path(d2));
    StringsEqual(d1.message, d2.message);
    EqualChains(d1.messageChain, d2.messageChain);
    if |d1.relatedInformation| == |d2.relatedInformation| {
      EqualEachMeans(d1.relatedInformation, d2.relatedInformation);
    }
  }

  lemma {:induction false} EqualEachMeans(r1: seq<Diagnostic>, r2: seq<Diagnostic>)
    requires |r1| == |r2|
    ensures EqualEach(r1, r2) <==> CompareEach(r1, r2) == 0 && EachCodesAgree(r1, r2)
    decreases r1, 0
  {
    hide EqualDiagnostics, Compare, CodesAgree;
    if r1 != [] {
      EqualMeansCompareZero(r1[0], r2[0]);
      EqualEachMeans(r1[1..], r2[1..]);
    }
  }
}
