/** The package archive and the signed payload in their own numbers: limits, bytes, and what is told of a bad archive. */
module ArchiveTerms {
  import opened Bytes
  import opened Wrappers
  import opened Extensions
  import opened PackageArchive
  import opened SignaturePayload
  import opened Lexicographic
  import Utf8

  // Limits.

  /** A path of a package: well-formed UTF-8 of at most 1024 bytes that names a file inside it. */
  ghost predicate NamesFile(path: Text) {
    && 1 <= |path| <= 1024 && Utf8.Valid(path) && ValidPackagePath(path) && path[|path| - 1] != 0x2f
  }

  ghost predicate MayHold(es: seq<Entry>) {
    && 1 <= |es| <= 2048 && TotalBytes(es) <= 0x400_0000
    && (forall e | e in es :: NamesFile(e.path) && |e.contents| <= 0x100_0000)
    && (forall i, j | 0 <= i < j < |es| :: es[i].path != es[j].path)
    && exists e | e in es :: e.path == Ascii("manifest") && |e.contents| <= 0x4_0000
  }

  lemma GoodPathIs(path: Text)
    ensures GoodPath(path) <==> NamesFile(path)
  {
    hide ValidPackagePath;
    Utf8.ValidExactly(path);
  }

  /** The limits of an archive, all of them, and the one entry it must have. */
  lemma AcceptableExactly(es: seq<Entry>)
    ensures Acceptable(es) <==> MayHold(es)
  {
    hide TotalBytes, Utf8.Valid, ValidPackagePath;
    forall e | e in es
      ensures GoodPath(e.path) <==> NamesFile(e.path)
    {
      GoodPathIs(e.path);
    }
    hide NamesFile, GoodPath;
    if MayHold(es) {
      var e :| e in es && e.path == Ascii("manifest") && |e.contents| <= 0x4_0000;
      ManifestOnce(es, e);
    }
  }

  lemma ManifestOnce(es: seq<Entry>, e: Entry)
    requires e in es && e.path == Ascii("manifest") && forall i, j | 0 <= i < j < |es| :: es[i].path != es[j].path
    ensures HasPath(es, ManifestPath()) && forall f | f in es && f.path == ManifestPath() :: f == e
  {
    var k :| 0 <= k < |es| && es[k] == e;
    assert es[k].path == ManifestPath();
  }

  /** The decoder accepts exactly the serialisations of such archives, under a name that ends in .gcex. */
  lemma ArchiveExactly(name: Text, s: seq<byte>, es: seq<Entry>)
    ensures Decode(name, s).entries == Some(es) <==>
              |name| >= 5 && name[|name| - 5..] == Ascii(".gcex") && |s| <= 0x400_0000 && MayHold(es) && s == Serialised(es)
  {
    hide Decode, Acceptable, MayHold, Serialised, Ascii;
    DecodesExactly(name, s, es);
    AcceptableExactly(es);
  }

  // Bytes.

  lemma NoEntries()
    ensures EntriesBytes([]) == []
  {
  }

  lemma OneEntry(e: Entry, es: seq<Entry>)
    ensures EntriesBytes([e] + es) == LE(|e.path|, 2) + LE(|e.contents|, 8) + e.path + e.contents + EntriesBytes(es)
  {
    hide LE;
    assert ([e] + es)[1..] == es;
  }

  function ManifestEntry(): Entry {
    Entry(Ascii("manifest"), [0x7b, 0x7d])
  }

  function ScriptEntry(): Entry {
    Entry(Ascii("a.js"), [1])
  }

  function SignatureEntry(): Entry {
    Entry(Ascii("signatures/a"), [9])
  }

  lemma ManifestIs()
    ensures LE(|ManifestEntry().path|, 2) == [8, 0] && LE(|ManifestEntry().contents|, 8) == [2, 0, 0, 0, 0, 0, 0, 0]
    ensures ManifestEntry().path == [0x6d, 0x61, 0x6e, 0x69, 0x66, 0x65, 0x73, 0x74]
  {
    hide LE;
    SmallBytes(8);
    EightBytes(2, 0, 0, 0, 0, 0, 0, 0);
  }

  lemma ScriptIs()
    ensures LE(|ScriptEntry().path|, 2) == [4, 0] && LE(|ScriptEntry().contents|, 8) == [1, 0, 0, 0, 0, 0, 0, 0]
    ensures ScriptEntry().path == [0x61, 0x2e, 0x6a, 0x73]
  {
    hide LE;
    SmallBytes(4);
    EightBytes(1, 0, 0, 0, 0, 0, 0, 0);
  }

  /** An archive byte by byte: the magic word, version one, three zeros, the number of entries, and of each entry the lengths
      of its path and contents before both. */
  lemma SerialisedExactly()
    ensures Serialised([ManifestEntry(), ScriptEntry()])
            == [0x47, 0x43, 0x45, 0x58, 1, 0, 0, 0, 2, 0, 0, 0]
               + ([8, 0, 2, 0, 0, 0, 0, 0, 0, 0, 0x6d, 0x61, 0x6e, 0x69, 0x66, 0x65, 0x73, 0x74, 0x7b, 0x7d]
                  + [4, 0, 1, 0, 0, 0, 0, 0, 0, 0, 0x61, 0x2e, 0x6a, 0x73, 1])
  {
    hide LE, Ascii, EntriesBytes;
    ManifestIs();
    ScriptIs();
    SmallBytes(2);
    NoEntries();
    OneEntry(ScriptEntry(), []);
    OneEntry(ManifestEntry(), [ScriptEntry()]);
    var script: seq<Entry> := [ScriptEntry()];
    assert script + [] == script && [ManifestEntry()] + script == [ManifestEntry(), ScriptEntry()];
  }

  // What is told of a bad archive.

  ghost predicate HasManifest(es: seq<Entry>) {
    exists i | 0 <= i < |es| :: es[i].path == Ascii("manifest")
  }

  /** The objections to an archive in their order; it is decoded when there is none. */
  lemma ToldExactly(name: Text, s: seq<byte>)
    ensures var d, named := Decode(name, s), if |name| >= 5 && name[|name| - 5..] == Ascii(".gcex") then [] else [InvalidSuffix];
      && (d.entries.Some? <==> d.issues == [])
      && if s == [] then d.issues == named + [EmptyArchive]
         else if |s| > 0x400_0000 then d.issues == named + [PackageTooLarge]
         else if |s| < 4 then d.issues == named + [Truncated]
         else if s[..4] != [0x47, 0x43, 0x45, 0x58] then d.issues == named + [InvalidMagic]
         else if |s| < 5 then d.issues == named + [Truncated]
         else if s[4] != 1 then d.issues == named + [UnsupportedVersion]
         else
           var told := named + if exists i | 5 <= i < |s| && i < 8 :: s[i] != 0 then [InvalidReserved] else [];
           if |s| < 12 then d.issues == told + [Truncated]
           else if FromLE(s[8..12]) == 0 || FromLE(s[8..12]) > 2048 then d.issues == told + [InvalidCount]
           else
             match ParseEntries(s[12..], [], FromLE(s[8..12]))
             case Bad(issue) => d.issues == told + [issue]
             case Got(es, rest) =>
               d.issues == told + ((if HasManifest(es) then [] else [MissingManifest]) + if rest == [] then [] else [TrailingBytes])
  {
    hide ParseEntries, FromLE, Ascii;
    if |s| >= 12 {
      assert s[8..][..4] == s[8..12];
    }
  }

  /** The first defect of an entry. */
  lemma EntryDefects(s: seq<byte>, before: seq<Entry>)
    ensures var r := ParseEntry(s, before);
      if |s| < 10 then r == Bad(Truncated)
      else
        var p, c := FromLE(s[..2]), FromLE(s[2..10]);
        if p == 0 || p > 1024 then r == Bad(InvalidPath)
        else if c > 0x100_0000 then r == Bad(EntryTooLarge)
        else if TotalBytes(before) + c > 0x400_0000 then r == Bad(TotalTooLarge)
        else if p > |s| - 10 then r == Bad(Truncated)
        else if !NamesFile(s[10..10 + p]) then r == Bad(InvalidPath)
        else if exists i | 0 <= i < |before| :: before[i].path == s[10..10 + p] then r == Bad(DuplicateEntry)
        else if s[10..10 + p] == Ascii("manifest") && c > 0x4_0000 then r == Bad(ManifestTooLarge)
        else if c > |s| - 10 - p then r == Bad(Truncated)
        else r == Got(Entry(s[10..10 + p], s[10 + p..10 + p + c]), s[10 + p + c..])
  {
    hide FromLE, TotalBytes, GoodPath, NamesFile, Ascii, HasPath, ManifestPath;
    if |s| >= 10 {
      var p, c := FromLE(s[..2]), FromLE(s[2..10]);
      assert s[2..][..8] == s[2..10] && s[2..][8..] == s[10..];
      ManifestNamed();
      if p <= |s| - 10 {
        BodyParts(s, p, c);
        GoodPathIs(s[10..10 + p]);
        PathTaken(before, s[10..10 + p]);
      }
    }
  }

  lemma ManifestNamed()
    ensures ManifestPath() == Ascii("manifest")
  {
  }

  lemma PathTaken(before: seq<Entry>, path: Text)
    ensures HasPath(before, path) <==> exists i | 0 <= i < |before| :: before[i].path == path
  {
  }

  lemma BodyParts(s: seq<byte>, p: nat, c: nat)
    requires p <= |s| - 10
    ensures s[10..][..p] == s[10..10 + p] && s[10..][p..] == s[10 + p..]
    ensures c <= |s| - 10 - p ==> s[10 + p..][..c] == s[10 + p..10 + p + c] && s[10 + p..][c..] == s[10 + p + c..]
  {
  }

  // The signed payload.

  /** The signature's own files are those under signatures/. */
  lemma CoveredExactly(files: seq<Entry>, e: Entry)
    ensures Covered([]) == []
    ensures Covered(files + [e]) == Covered(files) + if |e.path| >= 11 && e.path[..11] == Ascii("signatures/") then [] else [e]
  {
    hide Ascii;
    assert (files + [e])[..|files + [e]| - 1] == files;
  }

  lemma ThreeCovered()
    ensures Covered([ManifestEntry(), SignatureEntry(), ScriptEntry()]) == [ManifestEntry(), ScriptEntry()]
  {
    assert SignatureEntry().path[..11] == Ascii("signatures/") && ManifestEntry().path[..8] == Ascii("manifest") && |ScriptEntry().path| == 4;
    hide Covered, ManifestEntry, SignatureEntry, ScriptEntry, Ascii;
    CoveredExactly([], ManifestEntry());
    CoveredExactly([ManifestEntry()], SignatureEntry());
    CoveredExactly([ManifestEntry(), SignatureEntry()], ScriptEntry());
  }

  lemma OneFile(e: Entry)
    ensures FilesBytes([]) == [] && FilesBytes([e]) == FileBytes(e)
  {
    hide FileBytes;
    var files: seq<Entry> := [e];
    assert files[..0] == [];
  }

  lemma TwoFiles(e: Entry, f: Entry)
    ensures FilesBytes([e, f]) == FileBytes(e) + FileBytes(f)
  {
    hide FileBytes;
    OneFile(e);
    var files: seq<Entry> := [e, f];
    assert files[..1] == [e];
  }

  lemma TwoSorted(e: Entry, f: Entry)
    requires Less(f.path, e.path)
    ensures Sorted([e, f]) == [f, e]
  {
    hide Less;
    var files: seq<Entry> := [e, f];
    assert files[..1] == [e] && files[..1][..0] == [];
    assert Sorted(files[..1]) == [e];
  }

  lemma PreambleIs()
    ensures Preamble(2) == [0x24, 0] + Ascii("GoreeCloud GCEX signature payload v1") + [1, 2, 0, 0, 0]
  {
    hide LE, Ascii;
    assert |Ascii("GoreeCloud GCEX signature payload v1")| == 0x24;
    SmallBytes(0x24);
    SmallBytes(2);
  }

  lemma ScriptBytes()
    ensures FileBytes(ScriptEntry()) == [4, 0, 0x61, 0x2e, 0x6a, 0x73, 1, 0, 0, 0, 0, 0, 0, 0, 1]
  {
    hide LE, Ascii;
    ScriptIs();
  }

  lemma ManifestBytes()
    ensures FileBytes(ManifestEntry()) == [8, 0, 0x6d, 0x61, 0x6e, 0x69, 0x66, 0x65, 0x73, 0x74, 2, 0, 0, 0, 0, 0, 0, 0, 0x7b, 0x7d]
  {
    hide LE, Ascii;
    ManifestIs();
  }

  /** A payload byte by byte: the domain behind its length, version one, the number of covered files, and each of them by
      path, both parts behind their lengths. */
  lemma PayloadIs()
    ensures Payload([ManifestEntry(), SignatureEntry(), ScriptEntry()])
            == [0x24, 0] + Ascii("GoreeCloud GCEX signature payload v1") + [1, 2, 0, 0, 0]
               + ([4, 0, 0x61, 0x2e, 0x6a, 0x73, 1, 0, 0, 0, 0, 0, 0, 0, 1]
                  + [8, 0, 0x6d, 0x61, 0x6e, 0x69, 0x66, 0x65, 0x73, 0x74, 2, 0, 0, 0, 0, 0, 0, 0, 0x7b, 0x7d])
  {
    hide Covered, Sorted, FilesBytes, FileBytes, Preamble, Ascii, ManifestEntry, SignatureEntry, ScriptEntry, Less;
    ThreeCovered();
    ScriptFirst();
    TwoSorted(ManifestEntry(), ScriptEntry());
    TwoFiles(ScriptEntry(), ManifestEntry());
    PreambleIs();
    ScriptBytes();
    ManifestBytes();
  }

  lemma ScriptFirst()
    ensures Less(ScriptEntry().path, ManifestEntry().path)
  {
    assert ScriptEntry().path[0] == 0x61 && ManifestEntry().path[0] == 0x6d;
  }
}
