/** The comparison as it is computed, and the collection of diagnostics that is kept sorted by it. */
module DiagnosticsCollections {
  import opened Wrappers
  import opened Diagnostics

  // ----- comparing -----

  method CompareMessageChainSize(c1: seq<Diagnostic>, c2: seq<Diagnostic>) returns (c: int)
    ensures c == CompareSize(c1, c2)
    decreases c1
  {
    c := |c2| - |c1|;
    if c != 0 {
      return;
    }
    var i := 0;
    while i < |c1|
      invariant 0 <= i <= |c1| && c == 0
      invariant CompareSizes(c1, c2) == CompareSizes(c1[i..], c2[i..])
    {
      assert c1[i..][1..] == c1[i + 1..] && c2[i..][1..] == c2[i + 1..];
      c := CompareMessageChainSize(c1[i].messageChain, c2[i].messageChain);
      if c != 0 {
        return;
      }
      i := i + 1;
    }
  }

  /** Never looks past the end of the second chain: the sizes have been compared before. */
  method CompareMessageChainContent(c1: seq<Diagnostic>, c2: seq<Diagnostic>) returns (c: int)
    requires CompareSize(c1, c2) == 0
    ensures c == CompareContent(c1, c2)
    decreases c1
  {
    hide CompareStrings;
    c := 0;
    var i := 0;
    while i < |c1|
      invariant 0 <= i <= |c1| == |c2| && c == 0
      invariant CompareSize(c1[i..], c2[i..]) == 0
      invariant CompareContent(c1, c2) == CompareContent(c1[i..], c2[i..])
    {
      assert c1[i..][1..] == c1[i + 1..] && c2[i..][1..] == c2[i + 1..];
      SameSize(c1[i..], c2[i..]);
      c := CompareStrings(c1[i].message, c2[i].message);
      if c != 0 {
        return;
      }
      if c1[i].messageChain != [] {
        c := CompareMessageChainContent(c1[i].messageChain, c2[i].messageChain);
        if c != 0 {
          return;
        }
      }
      i := i + 1;
    }
  }

  method CompareRelatedInfo(r1: seq<Diagnostic>, r2: seq<Diagnostic>) returns (c: int)
    ensures c == CompareRelated(r1, r2)
    decreases r1, 0
  {
    hide Compare;
    c := |r2| - |r1|;
    if c != 0 {
      return;
    }
    var i := 0;
    while i < |r1|
      invariant 0 <= i <= |r1| && c == 0
      invariant CompareEach(r1, r2) == CompareEach(r1[i..], r2[i..])
    {
      assert r1[i..][1..] == r1[i + 1..] && r2[i..][1..] == r2[i + 1..];
      c := CompareDiagnostics(r1[i], r2[i]);
      if c != 0 {
        return;
      }
      i := i + 1;
    }
  }

  method CompareDiagnostics(d1: Diagnostic, d2: Diagnostic) returns (c: int)
    ensures c == Compare(d1, d2)
    decreases d1, 1
  {
    hide CompareStrings, CompareSize, CompareContent, CompareRelated;
    c := CompareStrings(Path(d1), Path(d2));
    if c != 0 {
      return;
    }
    c := d1.pos - d2.pos;
    if c != 0 {
      return;
    }
    c := d1.end - d2.end;
    if c != 0 {
      return;
    }
    c := d1.code - d2.code;
    if c != 0 {
      return;
    }
    c := CompareStrings(d1.message, d2.message);
    if c != 0 {
      return;
    }
    c := CompareMessageChainSize(d1.messageChain, d2.messageChain);
    if c != 0 {
      return;
    }
    c := CompareMessageChainContent(d1.messageChain, d2.messageChain);
    if c != 0 {
      return;
    }
    c := CompareRelatedInfo(d1.relatedInformation, d2.relatedInformation);
  }

  // ----- sorted buckets -----

  ghost predicate Sorted(s: seq<Diagnostic>) {
    forall i, j :: 0 <= i < j < |s| ==> Compare(s[i], s[j]) <= 0
  }

  /** The first place whose diagnostic is not before `d`. */
  method BinarySearch(s: seq<Diagnostic>, d: Diagnostic) returns (i: nat, found: bool)
    requires Sorted(s)
    ensures i <= |s|
    ensures forall k :: 0 <= k < i ==> Compare(s[k], d) < 0
    ensures forall k :: i <= k < |s| ==> Compare(s[k], d) >= 0
    ensures found <==> i < |s| && Compare(s[i], d) == 0
    ensures found <==> exists k :: 0 <= k < |s| && Compare(s[k], d) == 0
  {
    hide Compare;
    i := 0;
    var j := |s|;
    while i < j
      invariant i <= j <= |s|
      invariant forall k :: 0 <= k < i ==> Compare(s[k], d) < 0
      invariant forall k :: j <= k < |s| ==> Compare(s[k], d) >= 0
    {
      var h := (i + j) / 2;
      var c := CompareDiagnostics(s[h], d);
      forall k | 0 <= k < |s|
        ensures k < h && c < 0 ==> Compare(s[k], d) < 0
        ensures h < k && c >= 0 ==> Compare(s[k], d) >= 0
      {
        if k < h {
          CompareTransitive(s[k], s[h], d);
        } else if h < k {
          CompareOpposite(s[h], d);
          CompareOpposite(s[k], d);
          CompareTransitive(s[h], s[k], d);
        }
      }
      if c < 0 {
        i := h + 1;
      } else {
        j := h;
      }
    }
    found := false;
    if i < |s| {
      var c := CompareDiagnostics(s[i], d);
      found := c == 0;
      forall k | i <= k < |s|
        ensures c > 0 ==> Compare(s[k], d) > 0
      {
        if i < k {
          CompareTransitive(s[i], s[k], d);
        }
      }
    }
  }

  method InsertSorted(s: seq<Diagnostic>, d: Diagnostic) returns (r: seq<Diagnostic>)
    requires Sorted(s)
    ensures Sorted(r) && multiset(r) == multiset(s) + multiset{d}
  {
    hide Compare;
    var i, found := BinarySearch(s, d);
    r := s[..i] + [d] + s[i..];
    assert s == s[..i] + s[i..];
    forall k | i <= k < |s|
      ensures Compare(d, s[k]) <= 0
    {
      CompareOpposite(s[k], d);
    }
  }

  // ----- the collection -----

  /** A bucket is sorted and holds the diagnostics that were added for its file, as often as they were
      added. */
  ghost predicate IsBucket(s: seq<Diagnostic>, file: Option<string>, added: seq<Diagnostic>) {
    && Sorted(s) && (forall d :: d in s ==> d.file == file)
    && forall d: Diagnostic :: d.file == file ==> multiset(s)[d] == multiset(added)[d]
  }

  lemma BucketGrows(s: seq<Diagnostic>, r: seq<Diagnostic>, added: seq<Diagnostic>, d: Diagnostic)
    requires IsBucket(s, d.file, added) && Sorted(r) && multiset(r) == multiset(s) + multiset{d}
    ensures IsBucket(r, d.file, added + [d])
  {
    hide Sorted;
    forall x | x in r
      ensures x.file == d.file
    {
      assert x in multiset(r);
    }
    assert multiset(added + [d]) == multiset(added) + multiset{d};
  }

  lemma BucketStays(s: seq<Diagnostic>, file: Option<string>, added: seq<Diagnostic>, d: Diagnostic)
    requires IsBucket(s, file, added) && d.file != file
    ensures IsBucket(s, file, added + [d])
  {
    hide Sorted;
    assert multiset(added + [d]) == multiset(added) + multiset{d};
  }

  lemma InBucket(s: seq<Diagnostic>, file: Option<string>, added: seq<Diagnostic>)
    requires IsBucket(s, file, added)
    ensures forall d :: d in s <==> d in added && d.file == file
  {
    hide Sorted;
    forall d: Diagnostic
      ensures d in s <==> d in added && d.file == file
    {
      assert d in s <==> multiset(s)[d] > 0;
      assert d in added <==> multiset(added)[d] > 0;
    }
  }

  function Elements(files: map<string, seq<Diagnostic>>, bucket: Option<string>, global: seq<Diagnostic>): seq<Diagnostic> {
    match bucket
    case None => global
    case Some(name) => if name in files then files[name] else []
  }

  class DiagnosticsCollection {
    var fileDiagnostics: map<string, seq<Diagnostic>>
    var nonFileDiagnostics: seq<Diagnostic>
    ghost var added: seq<Diagnostic>

    ghost function Bucket(file: Option<string>): seq<Diagnostic>
      reads this
    {
      Elements(fileDiagnostics, file, nonFileDiagnostics)
    }

    ghost predicate Valid()
      reads this
    {
      forall file: Option<string> :: Keeps(file)
    }

    ghost predicate Keeps(file: Option<string>)
      reads this
    {
      IsBucket(Bucket(file), file, added)
    }

    constructor ()
      ensures Valid() && added == []
    {
      fileDiagnostics, nonFileDiagnostics, added := map[], [], [];
    }

    method Add(d: Diagnostic)
      requires Valid()
      modifies this
      ensures Valid() && added == old(added) + [d]
    {
      hide Sorted, IsBucket;
      assert Keeps(d.file);
      ghost var before := Bucket(d.file);
      SortedBucket(before, d.file, added);
      var bucket: seq<Diagnostic>;
      if d.file.Some? {
        bucket := InsertSorted(if d.file.value in fileDiagnostics then fileDiagnostics[d.file.value] else [], d);
        fileDiagnostics := fileDiagnostics[d.file.value := bucket];
      } else {
        bucket := InsertSorted(nonFileDiagnostics, d);
        nonFileDiagnostics := bucket;
      }
      added := added + [d];
      BucketGrows(before, bucket, old(added), d);
      forall file: Option<string>
        ensures Keeps(file)
      {
        if file != d.file {
          assert old(Keeps(file));
          BucketStays(Bucket(file), file, old(added), d);
        }
      }
    }

    /** Finds a diagnostic of the same file that compares as equal exactly if one was added. */
    method Lookup(d: Diagnostic) returns (r: Option<Diagnostic>)
      requires Valid()
      ensures r.Some? ==> r.value in added && r.value.file == d.file && Compare(r.value, d) == 0
      ensures r.None? ==> forall a :: a in added && a.file == d.file ==> Compare(a, d) != 0
    {
      hide Compare, Sorted, IsBucket;
      var bucket := if d.file.None? then nonFileDiagnostics
                    else if d.file.value in fileDiagnostics then fileDiagnostics[d.file.value] else [];
      assert Keeps(d.file) && bucket == Bucket(d.file);
      SortedBucket(bucket, d.file, added);
      InBucket(bucket, d.file, added);
      var i, ok := BinarySearch(bucket, d);
      return if ok then Some(bucket[i]) else None;
    }

    /** All diagnostics, those of no file first and then file by file, each file in the order of its
        diagnostics and so never from a larger position to a smaller one. */
    method GetDiagnostics() returns (r: seq<Diagnostic>)
      requires Valid()
      ensures multiset(r) == multiset(added)
      ensures Sorted(r) <==> NamelessLast(added)
      ensures FileByFile(r)
      ensures forall i, j :: 0 <= i < j < |r| && r[i].file == r[j].file ==> !Before(r[j], r[i]) && r[i].pos <= r[j].pos
    {
      hide Sorted, IsBucket, Ascending, Compare, CompareStrings;
      var names := SortNames(fileDiagnostics.Keys);
      r := nonFileDiagnostics;
      var i := 0;
      while i < |names|
        invariant 0 <= i <= |names|
        invariant r == Concatenated(fileDiagnostics, nonFileDiagnostics, names[..i])
      {
        assert names[..i + 1][..i] == names[..i];
        r := r + fileDiagnostics[names[i]];
        i := i + 1;
      }
      assert names[..|names|] == names;
      forall file: Option<string>
        ensures IsBucket(Elements(fileDiagnostics, file, nonFileDiagnostics), file, added)
      {
        assert Keeps(file);
      }
      AllElements(fileDiagnostics, nonFileDiagnostics, names, added);
      AllSorted(fileDiagnostics, nonFileDiagnostics, names, added);
      FilesInOrder(fileDiagnostics, nonFileDiagnostics, names, added);
      PositionsInOrder(r);
    }
  }

  /** No file before any file, and files by their names. */
  ghost predicate FileBefore(a: Option<string>, b: Option<string>) {
    b.Some? && (a.None? || StringBefore(a.value, b.value))
  }

  ghost predicate FileByFile(r: seq<Diagnostic>) {
    forall i, j :: 0 <= i < j < |r| ==>
      FileBefore(r[i].file, r[j].file) || (r[i].file == r[j].file && Compare(r[i], r[j]) <= 0)
  }

  lemma {:induction false} FilesInOrder(files: map<string, seq<Diagnostic>>, global: seq<Diagnostic>, names: seq<string>,
                                        added: seq<Diagnostic>)
    requires AreBuckets(files, global, added) && Ascending(names) && forall n :: n in names ==> n in files
    ensures FileByFile(Concatenated(files, global, names))
    decreases |names|
  {
    hide Compare, CompareStrings, StringBefore;
    var r := Concatenated(files, global, names);
    if names == [] {
      assert IsBucket(Elements(files, None, global), None, added);
    } else {
      var front, last := names[..|names| - 1], names[|names| - 1];
      var before := Concatenated(files, global, front);
      AscendingFront(names);
      FilesInOrder(files, global, front, added);
      assert IsBucket(Elements(files, Some(last), global), Some(last), added);
      forall i, j | 0 <= i < j < |r|
        ensures FileBefore(r[i].file, r[j].file) || (r[i].file == r[j].file && Compare(r[i], r[j]) <= 0)
      {
        if i < |before| <= j {
          assert r[i] == before[i] && r[j] in files[last];
          ConcatenatedFiles(files, global, front, added, r[i]);
          if r[i].file.Some? {
            var k :| 0 <= k < |front| && front[k] == r[i].file.value;
            assert names[k] == front[k];
            StringsMeaning(names[k], last);
          }
        }
      }
    }
  }

  lemma PositionsInOrder(r: seq<Diagnostic>)
    requires FileByFile(r)
    ensures forall i, j :: 0 <= i < j < |r| && r[i].file == r[j].file ==> !Before(r[j], r[i]) && r[i].pos <= r[j].pos
  {
    forall i, j | 0 <= i < j < |r| && r[i].file == r[j].file
      ensures !Before(r[j], r[i]) && r[i].pos <= r[j].pos
    {
      FileNotBefore(r[i].file);
      InOrder(r[i], r[j]);
    }
  }

  lemma FileNotBefore(file: Option<string>)
    ensures !FileBefore(file, file)
  {
    if file.Some? {
      StringsMeaning(file.value, file.value);
      StringsEqual(file.value, file.value);
    }
  }

  lemma InOrder(a: Diagnostic, b: Diagnostic)
    requires Compare(a, b) <= 0 && a.file == b.file
    ensures !Before(b, a) && a.pos <= b.pos
  {
    hide Compare, CompareStrings, StringBefore;
    CompareOpposite(b, a);
    CompareMeaning(b, a);
  }

  lemma SortedBucket(s: seq<Diagnostic>, file: Option<string>, added: seq<Diagnostic>)
    requires IsBucket(s, file, added)
    ensures Sorted(s)
  {
  }

  // ----- all diagnostics -----

  /** A file with the empty name has the same path as no file at all. */
  ghost predicate NamelessLast(added: seq<Diagnostic>) {
    forall a, b :: a in added && b in added && a.file.None? && b.file == Some("") ==> Compare(a, b) <= 0
  }

  /** The buckets of no file and of the named files, in this order. */
  ghost function Concatenated(files: map<string, seq<Diagnostic>>, global: seq<Diagnostic>, names: seq<string>): seq<Diagnostic>
    requires forall n :: n in names ==> n in files
  {
    if names == [] then global
    else Concatenated(files, global, names[..|names| - 1]) + files[names[|names| - 1]]
  }

  ghost predicate Ascending(names: seq<string>) {
    forall i, j :: 0 <= i < j < |names| ==> CompareStrings(names[i], names[j]) < 0
  }

  method SortNames(names: set<string>) returns (r: seq<string>)
    ensures Ascending(r) && forall n :: n in r <==> n in names
  {
    hide CompareStrings;
    r := [];
    var left := names;
    while left != {}
      invariant Ascending(r) && left <= names && forall n :: n in r <==> n in names - left
      decreases |left|
    {
      var n :| n in left;
      left := left - {n};
      var i := 0;
      while i < |r| && CompareStrings(r[i], n) < 0
        invariant 0 <= i <= |r| && forall k :: 0 <= k < i ==> CompareStrings(r[k], n) < 0
      {
        i := i + 1;
      }
      r := InsertName(r, i, n);
    }
  }

  method InsertName(r: seq<string>, i: nat, n: string) returns (r': seq<string>)
    requires Ascending(r) && i <= |r| && n !in r
    requires forall k :: 0 <= k < i ==> CompareStrings(r[k], n) < 0
    requires i < |r| ==> CompareStrings(r[i], n) >= 0
    ensures Ascending(r') && forall m :: m in r' <==> m in r || m == n
  {
    hide CompareStrings;
    r' := r[..i] + [n] + r[i..];
    forall k | i <= k < |r|
      ensures CompareStrings(n, r[k]) < 0
    {
      StringsEqual(r[i], n);
      StringsOpposite(r[i], n);
      if i < k {
        StringsTransitive(n, r[i], r[k]);
      }
    }
    assert r == r[..i] + r[i..];
  }

  ghost predicate AreBuckets(files: map<string, seq<Diagnostic>>, global: seq<Diagnostic>, added: seq<Diagnostic>) {
    forall file: Option<string> :: IsBucket(Elements(files, file, global), file, added)
  }

  lemma AscendingFront(names: seq<string>)
    requires Ascending(names) && names != []
    ensures Ascending(names[..|names| - 1]) && names[|names| - 1] !in names[..|names| - 1]
  {
    hide CompareStrings;
    StringsEqual(names[|names| - 1], names[|names| - 1]);
  }

  lemma {:induction false} ConcatenatedElements(files: map<string, seq<Diagnostic>>, global: seq<Diagnostic>,
                                                names: seq<string>, added: seq<Diagnostic>, d: Diagnostic)
    requires AreBuckets(files, global, added) && Ascending(names) && forall n :: n in names ==> n in files
    ensures multiset(Concatenated(files, global, names))[d] ==
              if d.file.None? || d.file.value in names then multiset(added)[d] else 0
  {
    hide Sorted, Ascending;
    if names == [] {
      assert IsBucket(Elements(files, None, global), None, added);
      InBucket(global, None, added);
      assert d.file.Some? ==> d !in multiset(global);
    } else {
      var front, last := names[..|names| - 1], names[|names| - 1];
      AscendingFront(names);
      assert names == front + [last];
      ConcatenatedElements(files, global, front, added, d);
      assert IsBucket(Elements(files, Some(last), global), Some(last), added);
      InBucket(files[last], Some(last), added);
      assert d.file != Some(last) ==> d !in multiset(files[last]);
    }
  }

  lemma AllElements(files: map<string, seq<Diagnostic>>, global: seq<Diagnostic>, names: seq<string>,
                    added: seq<Diagnostic>)
    requires AreBuckets(files, global, added) && Ascending(names) && forall n :: n in names <==> n in files
    ensures multiset(Concatenated(files, global, names)) == multiset(added)
  {
    hide Ascending, Concatenated;
    var all := Concatenated(files, global, names);
    forall d: Diagnostic
      ensures multiset(all)[d] == multiset(added)[d]
    {
      hide IsBucket;
      ConcatenatedElements(files, global, names, added, d);
      if d.file.Some? && d.file.value !in names {
        assert IsBucket(Elements(files, d.file, global), d.file, added);
        InBucket(Elements(files, d.file, global), d.file, added);
        assert d !in multiset(added);
      }
    }
  }

  lemma SortedConcat(a: seq<Diagnostic>, b: seq<Diagnostic>)
    ensures Sorted(a + b) <==> Sorted(a) && Sorted(b) && forall x, y :: x in a && y in b ==> Compare(x, y) <= 0
  {
    hide Compare;
    if Sorted(a + b) {
      assert forall i :: 0 <= i < |a| ==> a[i] == (a + b)[i];
      assert forall i :: 0 <= i < |b| ==> b[i] == (a + b)[|a| + i];
      forall x, y | x in a && y in b
        ensures Compare(x, y) <= 0
      {
        var i :| 0 <= i < |a| && a[i] == x;
        var j :| 0 <= j < |b| && b[j] == y;
        assert (a + b)[i] == x && (a + b)[|a| + j] == y;
      }
    }
    if Sorted(a) && Sorted(b) && forall x, y :: x in a && y in b ==> Compare(x, y) <= 0 {
      forall i, j | 0 <= i < j < |a + b|
        ensures Compare((a + b)[i], (a + b)[j]) <= 0
      {
        if j >= |a| && i < |a| {
          assert a[i] in a && b[j - |a|] in b;
        }
      }
    }
  }

  lemma PathDecides(a: Diagnostic, b: Diagnostic)
    requires CompareStrings(Path(a), Path(b)) < 0
    ensures Compare(a, b) < 0
  {
  }

  /** The condition of NamelessLast, for the buckets concatenated so far. */
  ghost predicate GlobalFirst(files: map<string, seq<Diagnostic>>, global: seq<Diagnostic>, names: seq<string>) {
    "" in names && "" in files ==> forall a, b :: a in global && b in files[""] ==> Compare(a, b) <= 0
  }

  lemma {:induction false} ConcatenatedFiles(files: map<string, seq<Diagnostic>>, global: seq<Diagnostic>,
                                             names: seq<string>, added: seq<Diagnostic>, d: Diagnostic)
    requires AreBuckets(files, global, added) && forall n :: n in names ==> n in files
    requires d in Concatenated(files, global, names)
    ensures if d.file.None? then d in global else d.file.value in names
  {
    hide Sorted;
    if names == [] {
      assert IsBucket(Elements(files, None, global), None, added);
    } else {
      var front, last := names[..|names| - 1], names[|names| - 1];
      if d in Concatenated(files, global, front) {
        ConcatenatedFiles(files, global, front, added, d);
      } else {
        assert IsBucket(Elements(files, Some(last), global), Some(last), added);
      }
    }
  }

  lemma {:induction false} GlobalInFront(files: map<string, seq<Diagnostic>>, global: seq<Diagnostic>,
                                         names: seq<string>, d: Diagnostic)
    requires d in global && forall n :: n in names ==> n in files
    ensures d in Concatenated(files, global, names)
  {
    if names != [] {
      GlobalInFront(files, global, names[..|names| - 1], d);
    }
  }

  lemma BetweenBuckets(files: map<string, seq<Diagnostic>>, global: seq<Diagnostic>, names: seq<string>,
                       added: seq<Diagnostic>,
                       a: Diagnostic, b: Diagnostic)
    requires AreBuckets(files, global, added) && Ascending(names) && names != [] && forall n :: n in names ==> n in files
    requires a in Concatenated(files, global, names[..|names| - 1]) && b in files[names[|names| - 1]]
    requires a.file.Some? || names[|names| - 1] != ""
    ensures Compare(a, b) <= 0
  {
    hide Compare, CompareStrings, Sorted, Concatenated;
    var front, last := names[..|names| - 1], names[|names| - 1];
    assert IsBucket(Elements(files, Some(last), global), Some(last), added);
    ConcatenatedFiles(files, global, front, added, a);
    if a.file.None? {
      EmptyFirst(last);
    } else {
      var i :| 0 <= i < |front| && front[i] == a.file.value;
      assert CompareStrings(names[i], names[|names| - 1]) < 0;
    }
    PathDecides(a, b);
  }

  lemma EmptyFirst(n: string)
    requires n != ""
    ensures CompareStrings("", n) < 0
  {
  }

  lemma {:induction false} ConcatenatedSorted(files: map<string, seq<Diagnostic>>, global: seq<Diagnostic>,
                                              names: seq<string>, added: seq<Diagnostic>)
    requires AreBuckets(files, global, added) && Ascending(names) && forall n :: n in names ==> n in files
    ensures Sorted(Concatenated(files, global, names)) <==> GlobalFirst(files, global, names)
  {
    hide Sorted, Compare, CompareStrings, Ascending, IsBucket;
    if names == [] {
      assert IsBucket(Elements(files, None, global), None, added);
      SortedBucket(global, None, added);
    } else {
      var front, last := names[..|names| - 1], names[|names| - 1];
      AscendingFront(names);
      assert names == front + [last];
      ConcatenatedSorted(files, global, front, added);
      var before := Concatenated(files, global, front);
      SortedConcat(before, files[last]);
      assert IsBucket(Elements(files, Some(last), global), Some(last), added);
      SortedBucket(files[last], Some(last), added);
      forall a, b | a in before && b in files[last] && (a.file.Some? || last != "")
        ensures Compare(a, b) <= 0
      {
        BetweenBuckets(files, global, names, added, a, b);
      }
      if last == "" {
        forall a, b | a in global && b in files[""]
          ensures a in before
        {
          GlobalInFront(files, global, front, a);
        }
        forall a | a in before && a.file.None?
          ensures a in global
        {
          ConcatenatedFiles(files, global, front, added, a);
        }
        NoFiles(files, global, added);
      }
    }
  }

  lemma NoFiles(files: map<string, seq<Diagnostic>>, global: seq<Diagnostic>, added: seq<Diagnostic>)
    requires AreBuckets(files, global, added)
    ensures forall a :: a in global ==> a.file.None?
  {
    hide Sorted;
    assert IsBucket(Elements(files, None, global), None, added);
  }

  lemma AllSorted(files: map<string, seq<Diagnostic>>, global: seq<Diagnostic>, names: seq<string>,
                  added: seq<Diagnostic>)
    requires AreBuckets(files, global, added) && Ascending(names) && forall n :: n in names <==> n in files
    ensures Sorted(Concatenated(files, global, names)) <==> NamelessLast(added)
  {
    hide Sorted, Compare, Ascending, IsBucket, Concatenated;
    ConcatenatedSorted(files, global, names, added);
    assert IsBucket(Elements(files, None, global), None, added);
    InBucket(global, None, added);
    assert IsBucket(Elements(files, Some(""), global), Some(""), added);
    InBucket(Elements(files, Some(""), global), Some(""), added);
  }
}
