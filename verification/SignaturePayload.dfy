/** The bytes that are hashed for a package signature. */
module SignaturePayload {
  import opened Bytes
  import opened Wrappers
  import opened Lexicographic
  import opened PackageArchive

  function Domain(): seq<byte> {
    Ascii("GoreeCloud GCEX signature payload v1")
  }

  function Namespace(): Text {
    Ascii("signatures/")
  }

  predicate InNamespace(path: Text) {
    Namespace() <= path
  }

  /** The files a signature covers: all but its own. */
  function Covered(files: seq<Entry>): seq<Entry> {
    if files == [] then []
    else Covered(files[..|files| - 1]) + if InNamespace(files[|files| - 1].path) then [] else [files[|files| - 1]]
  }

  function Inserted(e: Entry, sorted: seq<Entry>): seq<Entry> {
    if sorted == [] || Less(e.path, sorted[0].path) then [e] + sorted else [sorted[0]] + Inserted(e, sorted[1..])
  }

  function Sorted(files: seq<Entry>): seq<Entry> {
    if files == [] then [] else Inserted(files[|files| - 1], Sorted(files[..|files| - 1]))
  }

  function FileBytes(e: Entry): seq<byte> {
    LE(|e.path|, 2) + e.path + LE(|e.contents|, 8) + e.contents
  }

  function FilesBytes(files: seq<Entry>): seq<byte> {
    if files == [] then [] else FilesBytes(files[..|files| - 1]) + FileBytes(files[|files| - 1])
  }

  function Preamble(count: nat): seq<byte> {
    LE(|Domain()|, 2) + Domain() + [1] + LE(count, 4)
  }

  /** Lengths that fit the widths they are written in. */
  predicate Fits(e: Entry) {
    |e.path| < 0x1_0000 && |e.contents| < U64_LIMIT
  }

  predicate Payable(files: seq<Entry>) {
    |Covered(files)| < 0x1_0000_0000 && forall e | e in Covered(files) :: Fits(e)
  }

  function Payload(files: seq<Entry>): seq<byte> {
    Preamble(|Covered(files)|) + FilesBytes(Sorted(Covered(files)))
  }

  method ComputePayload(files: seq<Entry>) returns (payload: Option<seq<byte>>)
    ensures payload == if Payable(files) then Some(Payload(files)) else None
  {
    hide LE, Inserted, InNamespace, Domain;
    var covered: seq<Entry> := [];
    var i := 0;
    while i < |files|
      invariant 0 <= i <= |files| && covered == Covered(files[..i])
    {
      assert files[..i + 1][..i] == files[..i];
      if !InNamespace(files[i].path) {
        covered := covered + [files[i]];
      }
      i := i + 1;
    }
    assert files[..i] == files;
    if |covered| >= 0x1_0000_0000 {
      return None;
    }
    var sorted := SortFiles(covered);
    SortedSame(covered);
    var writer := new ByteWriter();
    DomainSize();
    writer.WriteU16(|Domain()|);
    writer.WriteBytes(Domain());
    writer.WriteU8(1);
    writer.WriteU32(|covered|);
    assert writer.bytes == Preamble(|covered|);
    var ok := WriteFiles(writer, sorted);
    if !ok {
      return None;
    }
    return Some(writer.bytes);
  }

  method WriteFiles(writer: ByteWriter, files: seq<Entry>) returns (ok: bool)
    modifies writer
    ensures ok == forall e | e in files :: Fits(e)
    ensures ok ==> writer.bytes == old(writer.bytes) + FilesBytes(files)
  {
    hide LE;
    var i := 0;
    while i < |files|
      invariant 0 <= i <= |files|
      invariant forall j | 0 <= j < i :: Fits(files[j])
      invariant writer.bytes == old(writer.bytes) + FilesBytes(files[..i])
    {
      var e := files[i];
      if |e.path| >= 0x1_0000 || |e.contents| >= U64_LIMIT {
        assert e in files && !Fits(e);
        return false;
      }
      ghost var before := writer.bytes;
      writer.WriteU16(|e.path|);
      writer.WriteBytes(e.path);
      writer.WriteU64(|e.contents|);
      writer.WriteBytes(e.contents);
      assert writer.bytes == before + FileBytes(e);
      assert files[..i + 1][..i] == files[..i];
      i := i + 1;
    }
    assert files[..i] == files;
    return true;
  }

  lemma DomainSize()
    ensures |Domain()| == 36
  {
  }

  method SortFiles(files: seq<Entry>) returns (sorted: seq<Entry>)
    ensures sorted == Sorted(files)
  {
    sorted := [];
    var i := 0;
    while i < |files|
      invariant 0 <= i <= |files| && sorted == Sorted(files[..i])
    {
      assert files[..i + 1][..i] == files[..i];
      sorted := Inserted(files[i], sorted);
      i := i + 1;
    }
    assert files[..i] == files;
  }

  // Sorting.

  ghost predicate Increasing(files: seq<Entry>) {
    forall i, j | 0 <= i < j < |files| :: Less(files[i].path, files[j].path)
  }

  ghost predicate DistinctPaths(files: seq<Entry>) {
    forall i, j | 0 <= i < j < |files| :: files[i].path != files[j].path
  }

  lemma {:induction false} InsertedSame(e: Entry, sorted: seq<Entry>)
    ensures forall x :: x in Inserted(e, sorted) <==> x == e || x in sorted
    ensures |Inserted(e, sorted)| == |sorted| + 1
  {
    if !(sorted == [] || Less(e.path, sorted[0].path)) {
      InsertedSame(e, sorted[1..]);
      assert sorted == [sorted[0]] + sorted[1..];
    }
  }

  lemma {:induction false} SortedSame(files: seq<Entry>)
    ensures forall x :: x in Sorted(files) <==> x in files
    ensures |Sorted(files)| == |files|
  {
    if files != [] {
      SortedSame(files[..|files| - 1]);
      InsertedSame(files[|files| - 1], Sorted(files[..|files| - 1]));
      assert files == files[..|files| - 1] + [files[|files| - 1]];
    }
  }

  lemma {:induction false} InsertedIncreasing(e: Entry, sorted: seq<Entry>)
    requires Increasing(sorted) && forall x | x in sorted :: x.path != e.path
    ensures Increasing(Inserted(e, sorted))
  {
    if sorted == [] {
    } else if Less(e.path, sorted[0].path) {
      forall j | 0 <= j < |sorted|
        ensures Less(e.path, sorted[j].path)
      {
        if j > 0 {
          LessTransitive(e.path, sorted[0].path, sorted[j].path);
        }
      }
    } else {
      LessTotal(e.path, sorted[0].path);
      assert sorted[0] in sorted;
      InsertedIncreasing(e, sorted[1..]);
      InsertedSame(e, sorted[1..]);
      var rest := Inserted(e, sorted[1..]);
      forall j | 0 <= j < |rest|
        ensures Less(sorted[0].path, rest[j].path)
      {
        assert rest[j] in rest;
        if rest[j] != e {
          var k :| 0 <= k < |sorted[1..]| && sorted[1..][k] == rest[j];
          assert sorted[k + 1] == rest[j];
        }
      }
    }
  }

  lemma {:induction false} SortedIncreasing(files: seq<Entry>)
    requires DistinctPaths(files)
    ensures Increasing(Sorted(files))
  {
    if files != [] {
      var rest, last := files[..|files| - 1], files[|files| - 1];
      SortedIncreasing(rest);
      SortedSame(rest);
      forall x | x in Sorted(rest)
        ensures x.path != last.path
      {
        var k :| 0 <= k < |rest| && rest[k] == x;
        assert files[k] == x;
      }
      InsertedIncreasing(last, Sorted(rest));
    }
  }

  /** There is one increasing list of a set of files, whatever order they came in. */
  lemma {:induction false} IncreasingIsUnique(s: seq<Entry>, t: seq<Entry>)
    requires Increasing(s) && Increasing(t) && forall x :: x in s <==> x in t
    ensures s == t
  {
    NoneLeft(s, t);
    NoneLeft(t, s);
    if s != [] && t != [] {
      LeastIsFirst(s, t);
      LeastIsFirst(t, s);
      LessIrreflexive(s[0].path);
      if Less(s[0].path, t[0].path) && Less(t[0].path, s[0].path) {
        LessTransitive(s[0].path, t[0].path, s[0].path);
      }
      assert s[0] == t[0];
      WithoutFirst(s);
      WithoutFirst(t);
      IncreasingIsUnique(s[1..], t[1..]);
      assert s == [s[0]] + s[1..] && t == [t[0]] + t[1..];
    }
  }

  lemma NoneLeft(s: seq<Entry>, t: seq<Entry>)
    requires forall x :: x in s ==> x in t
    ensures t == [] ==> s == []
  {
    if s != [] {
      assert s[0] in t;
    }
  }

  lemma LeastIsFirst(s: seq<Entry>, t: seq<Entry>)
    requires Increasing(t) && s != [] && t != [] && s[0] in t
    ensures s[0] == t[0] || Less(t[0].path, s[0].path)
  {
  }

  lemma WithoutFirst(s: seq<Entry>)
    requires Increasing(s) && s != []
    ensures Increasing(s[1..])
    ensures forall x :: x in s[1..] <==> x in s && x != s[0]
  {
    forall x | x in s[1..]
      ensures x != s[0]
    {
      var k :| 0 <= k < |s[1..]| && s[1..][k] == x;
      LessIrreflexive(x.path);
      assert Less(s[0].path, s[k + 1].path);
    }
    assert s == [s[0]] + s[1..];
  }

  // What the payload binds.

  lemma {:induction false} CoveredAre(files: seq<Entry>)
    ensures forall e :: e in Covered(files) <==> e in files && !InNamespace(e.path)
    ensures DistinctPaths(files) ==> DistinctPaths(Covered(files))
  {
    hide InNamespace;
    if files != [] {
      var rest, last := files[..|files| - 1], files[|files| - 1];
      CoveredAre(rest);
      assert files == rest + [last];
      if DistinctPaths(files) {
        assert DistinctPaths(rest);
        forall i | 0 <= i < |Covered(rest)|
          ensures Covered(rest)[i].path != last.path
        {
          assert Covered(rest)[i] in rest;
          var k :| 0 <= k < |rest| && rest[k] == Covered(rest)[i];
          assert files[k] == rest[k];
        }
      }
    }
  }

  /** The covered part of a package: contents by path. */
  ghost function CoveredMap(files: seq<Entry>): map<Text, seq<byte>>
    requires DistinctPaths(files)
  {
    map e | e in files && !InNamespace(e.path) :: e.path := e.contents
  }

  ghost predicate SameCovered(a: seq<Entry>, b: seq<Entry>) {
    forall e :: e in Covered(a) <==> e in Covered(b)
  }

  lemma CoveredMapIs(files: seq<Entry>)
    requires DistinctPaths(files)
    ensures forall e :: e in Covered(files) <==> e.path in CoveredMap(files) && CoveredMap(files)[e.path] == e.contents
  {
    hide Covered, InNamespace;
    CoveredAre(files);
    forall e
      ensures e in Covered(files) <==> e.path in CoveredMap(files) && CoveredMap(files)[e.path] == e.contents
    {
      if e.path in CoveredMap(files) && CoveredMap(files)[e.path] == e.contents {
        var f :| f in files && !InNamespace(f.path) && f.path == e.path;
        assert CoveredMap(files)[f.path] == f.contents;
        assert e == f;
      }
    }
  }

  lemma SameMap(a: seq<Entry>, b: seq<Entry>)
    requires DistinctPaths(a) && DistinctPaths(b)
    ensures SameCovered(a, b) <==> CoveredMap(a) == CoveredMap(b)
  {
    hide Covered, CoveredMap;
    CoveredMapIs(a);
    CoveredMapIs(b);
    if SameCovered(a, b) {
      SameKeys(a, b);
      SameKeys(b, a);
      forall path | path in CoveredMap(a)
        ensures path in CoveredMap(b) && CoveredMap(b)[path] == CoveredMap(a)[path]
      {
        assert Entry(path, CoveredMap(a)[path]) in Covered(a);
      }
      assert CoveredMap(a).Keys == CoveredMap(b).Keys;
    }
  }

  lemma SameKeys(a: seq<Entry>, b: seq<Entry>)
    requires DistinctPaths(a) && DistinctPaths(b) && SameCovered(a, b)
    ensures forall path | path in CoveredMap(a) :: path in CoveredMap(b)
  {
    hide Covered, CoveredMap;
    CoveredMapIs(a);
    CoveredMapIs(b);
    forall path | path in CoveredMap(a)
      ensures path in CoveredMap(b)
    {
      assert Entry(path, CoveredMap(a)[path]) in Covered(a);
    }
  }

  /** A file's bytes end where they say, so two files and what follows them cannot be confused. */
  lemma FileBytesExactly(e: Entry, f: Entry, p: seq<byte>, q: seq<byte>)
    requires Fits(e) && Fits(f) && FileBytes(e) + p == FileBytes(f) + q
    ensures e == f && p == q
  {
    hide LE;
    FilePrefix(e, p);
    FilePrefix(f, q);
    Pow256Values();
    LEInjective(|e.path|, |f.path|, 2);
    LEInjective(|e.contents|, |f.contents|, 8);
  }

  lemma FilePrefix(e: Entry, p: seq<byte>)
    ensures var s, n := FileBytes(e) + p, |e.path|;
      && |s| >= 10 + n + |e.contents| && s[..2] == LE(n, 2) && s[2..2 + n] == e.path && s[2 + n..10 + n] == LE(|e.contents|, 8)
      && s[10 + n..10 + n + |e.contents|] == e.contents && s[10 + n + |e.contents|..] == p
  {
    hide LE;
  }

  lemma {:induction false} FilesBytesFront(e: Entry, files: seq<Entry>)
    ensures FilesBytes([e] + files) == FileBytes(e) + FilesBytes(files)
  {
    hide FileBytes;
    if files == [] {
      assert FilesBytes([e]) == FilesBytes([]) + FileBytes(e);
      assert [e] + files == [e];
    } else {
      var all := [e] + files;
      assert all[..|all| - 1] == [e] + files[..|files| - 1];
      FilesBytesFront(e, files[..|files| - 1]);
    }
  }

  lemma {:induction false} FilesBytesExactly(s: seq<Entry>, t: seq<Entry>)
    requires |s| == |t| && (forall e | e in s :: Fits(e)) && (forall e | e in t :: Fits(e))
    requires FilesBytes(s) == FilesBytes(t)
    ensures s == t
  {
    hide FileBytes, FilesBytes, Fits;
    if s != [] {
      assert s == [s[0]] + s[1..] && t == [t[0]] + t[1..];
      FilesBytesFront(s[0], s[1..]);
      FilesBytesFront(t[0], t[1..]);
      assert s[0] in s && t[0] in t;
      FileBytesExactly(s[0], t[0], FilesBytes(s[1..]), FilesBytes(t[1..]));
      FilesBytesExactly(s[1..], t[1..]);
    }
  }

  lemma PreambleExactly(m: nat, n: nat, p: seq<byte>, q: seq<byte>)
    requires m < 0x1_0000_0000 && n < 0x1_0000_0000 && Preamble(m) + p == Preamble(n) + q
    ensures m == n && p == q
  {
    hide LE, Domain;
    PreamblePrefix(m, p);
    PreamblePrefix(n, q);
    Pow256Values();
    LEInjective(m, n, 4);
  }

  lemma PreamblePrefix(m: nat, p: seq<byte>)
    ensures var s, k := Preamble(m) + p, 3 + |Domain()|;
      |s| >= k + 4 && s[k..k + 4] == LE(m, 4) && s[k + 4..] == p
  {
    hide LE, Domain;
  }

  /** The hashed bytes of two packages are equal exactly when their covered contents by path are: the order of the
      files does not matter, nor do files in the signature's own namespace, and nothing else can collide. */
  lemma PayloadExactly(a: seq<Entry>, b: seq<Entry>)
    requires DistinctPaths(a) && DistinctPaths(b) && Payable(a) && Payable(b)
    ensures Payload(a) == Payload(b) <==> CoveredMap(a) == CoveredMap(b)
  {
    hide Covered, Sorted, FilesBytes, Fits, Preamble, CoveredMap, DistinctPaths, Increasing;
    SameMap(a, b);
    CoveredAre(a);
    CoveredAre(b);
    SortedSame(Covered(a));
    SortedSame(Covered(b));
    SortedIncreasing(Covered(a));
    SortedIncreasing(Covered(b));
    if Payload(a) == Payload(b) {
      PreambleExactly(|Covered(a)|, |Covered(b)|, FilesBytes(Sorted(Covered(a))), FilesBytes(Sorted(Covered(b))));
      FilesBytesExactly(Sorted(Covered(a)), Sorted(Covered(b)));
    }
    if SameCovered(a, b) {
      IncreasingIsUnique(Sorted(Covered(a)), Sorted(Covered(b)));
    }
  }

  /** Decoded packages have distinct paths and fitting lengths, so for them it holds without more. */
  lemma DecodedPayload(name: Text, s: seq<byte>, other: Text, t: seq<byte>, a: seq<Entry>, b: seq<Entry>)
    requires Decode(name, s).entries == Some(a) && Decode(other, t).entries == Some(b)
    ensures DistinctPaths(a) && DistinctPaths(b) && Payable(a) && Payable(b)
    ensures Payload(a) == Payload(b) <==> CoveredMap(a) == CoveredMap(b)
  {
    hide Decode, Acceptable, Payload, CoveredMap, Payable, DistinctPaths;
    DecodesExactly(name, s, a);
    DecodesExactly(other, t, b);
    AcceptableIsPayable(a);
    AcceptableIsPayable(b);
    PayloadExactly(a, b);
  }

  lemma AcceptableIsPayable(es: seq<Entry>)
    requires Acceptable(es)
    ensures DistinctPaths(es) && Payable(es)
  {
    hide GoodPath, TotalBytes, HasPath, ManifestPath;
    CoveredAre(es);
    CoveredCount(es);
    forall e | e in Covered(es)
      ensures Fits(e)
    {
      var k :| 0 <= k < |es| && es[k] == e;
      PathBound(e.path);
    }
  }

  lemma {:induction false} CoveredCount(files: seq<Entry>)
    ensures |Covered(files)| <= |files|
  {
    hide InNamespace;
    if files != [] {
      CoveredCount(files[..|files| - 1]);
    }
  }
}
