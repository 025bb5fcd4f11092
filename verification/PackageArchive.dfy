/** The extension package archive: a header, then entries each with its lengths before its path and contents. */
module PackageArchive {
  import opened Bytes
  import opened Wrappers
  import opened Extensions
  import Utf8

  const MAX_PACKAGE := 0x400_0000
  const MAX_ENTRIES := 2048
  const MAX_ENTRY := 0x100_0000
  const MAX_TOTAL := 0x400_0000
  const MAX_MANIFEST := 0x4_0000
  const MAX_PATH := 1024

  datatype Entry = Entry(path: Text, contents: seq<byte>)

  datatype Issue =
    | InvalidSuffix | EmptyArchive | PackageTooLarge | InvalidMagic | UnsupportedVersion | InvalidReserved
    | InvalidCount | Truncated | InvalidPath | DuplicateEntry | EntryTooLarge | TotalTooLarge | ManifestTooLarge
    | MissingManifest | TrailingBytes

  datatype Decoded = Decoded(entries: Option<seq<Entry>>, issues: seq<Issue>)

  function Magic(): seq<byte> {
    [0x47, 0x43, 0x45, 0x58]
  }

  function ManifestPath(): Text {
    Ascii("manifest")
  }

  function Suffix(): Text {
    Ascii(".gcex")
  }

  predicate EndsWith(s: Text, suffix: Text) {
    |suffix| <= |s| && s[|s| - |suffix|..] == suffix
  }

  // The language.

  function EntryBytes(e: Entry): seq<byte> {
    LE(|e.path|, 2) + LE(|e.contents|, 8) + e.path + e.contents
  }

  function EntriesBytes(es: seq<Entry>): seq<byte> {
    if es == [] then [] else EntryBytes(es[0]) + EntriesBytes(es[1..])
  }

  function Header(count: nat): seq<byte> {
    Magic() + [1] + [0, 0, 0] + LE(count, 4)
  }

  /** The one serialisation of a list of entries. */
  function Serialised(es: seq<Entry>): seq<byte> {
    Header(|es|) + EntriesBytes(es)
  }

  function TotalBytes(es: seq<Entry>): nat {
    if es == [] then 0 else TotalBytes(es[..|es| - 1]) + |es[|es| - 1].contents|
  }

  ghost predicate GoodPath(path: Text) {
    && 1 <= |path| <= MAX_PATH
    && (exists cs: seq<nat> :: Utf8.Scalars(cs) && Utf8.EncodeAll(cs) == path)
    && ValidPackagePath(path) && path[|path| - 1] != SLASH
  }

  ghost predicate GoodEntry(e: Entry) {
    GoodPath(e.path) && |e.contents| <= MAX_ENTRY && (e.path == ManifestPath() ==> |e.contents| <= MAX_MANIFEST)
  }

  predicate HasPath(es: seq<Entry>, path: Text) {
    exists i | 0 <= i < |es| :: es[i].path == path
  }

  /** The entry lists a package may hold. */
  ghost predicate Acceptable(es: seq<Entry>) {
    && 1 <= |es| <= MAX_ENTRIES
    && (forall i | 0 <= i < |es| :: GoodEntry(es[i]))
    && (forall i, j | 0 <= i < j < |es| :: es[i].path != es[j].path)
    && TotalBytes(es) <= MAX_TOTAL
    && HasPath(es, ManifestPath())
  }

  // The decoder as a function of the bytes.

  datatype Parse<+T> = Got(value: T, rest: seq<byte>) | Bad(issue: Issue)

  ghost function ParseEntry(s: seq<byte>, before: seq<Entry>): Parse<Entry> {
    if |s| < 10 then Bad(Truncated)
    else
      var pathLength, contentLength, body := FromLE(s[..2]), FromLE(s[2..][..8]), s[2..][8..];
      if pathLength == 0 || pathLength > MAX_PATH then Bad(InvalidPath)
      else if contentLength > MAX_ENTRY then Bad(EntryTooLarge)
      else if TotalBytes(before) > MAX_TOTAL - contentLength then Bad(TotalTooLarge)
      else if pathLength > |body| then Bad(Truncated)
      else
        var path := body[..pathLength];
        if !GoodPath(path) then Bad(InvalidPath)
        else if HasPath(before, path) then Bad(DuplicateEntry)
        else if path == ManifestPath() && contentLength > MAX_MANIFEST then Bad(ManifestTooLarge)
        else if contentLength > |body| - pathLength then Bad(Truncated)
        else Got(Entry(path, body[pathLength..][..contentLength]), body[pathLength..][contentLength..])
  }

  ghost function ParseEntries(s: seq<byte>, before: seq<Entry>, count: nat): Parse<seq<Entry>>
    decreases count
  {
    if count == 0 then Got(before, s)
    else
      match ParseEntry(s, before)
      case Bad(issue) => Bad(issue)
      case Got(e, rest) => ParseEntries(rest, before + [e], count - 1)
  }

  /** The number of entries announced and what follows the header; a nonzero reserved byte is noted and passed over. */
  ghost function ParseHeader(s: seq<byte>): (Parse<nat>, bool) {
    if s == [] then (Bad(EmptyArchive), false)
    else if |s| > MAX_PACKAGE then (Bad(PackageTooLarge), false)
    else if |s| < 4 then (Bad(Truncated), false)
    else if s[..4] != Magic() then (Bad(InvalidMagic), false)
    else if |s| < 5 then (Bad(Truncated), false)
    else if s[4] != 1 then (Bad(UnsupportedVersion), false)
    else
      var reserved := exists i | 5 <= i < |s| && i < 8 :: s[i] != 0;
      if |s| < 12 then (Bad(Truncated), reserved)
      else
        var count := FromLE(s[8..][..4]);
        if count == 0 || count > MAX_ENTRIES then (Bad(InvalidCount), reserved)
        else (Got(count, s[12..]), reserved)
  }

  ghost function Issues(name: Text, reserved: bool, last: seq<Issue>): seq<Issue> {
    (if EndsWith(name, Suffix()) then [] else [InvalidSuffix]) + (if reserved then [InvalidReserved] else []) + last
  }

  ghost function Decode(name: Text, s: seq<byte>): Decoded {
    var (header, reserved) := ParseHeader(s);
    match header
    case Bad(issue) => Decoded(None, Issues(name, reserved, [issue]))
    case Got(count, body) =>
      match ParseEntries(body, [], count)
      case Bad(issue) => Decoded(None, Issues(name, reserved, [issue]))
      case Got(es, rest) =>
        var last := (if HasPath(es, ManifestPath()) then [] else [MissingManifest]) + (if rest == [] then [] else [TrailingBytes]);
        var issues := Issues(name, reserved, last);
        Decoded(if issues == [] then Some(es) else None, issues)
  }

  // The decoder as the source runs it.

  method ReadEntry(reader: ByteReader, before: seq<Entry>, seen: set<Text>, total: nat) returns (e: Entry, issue: Option<Issue>)
    requires reader.Valid() && total == TotalBytes(before)
    requires forall path :: path in seen <==> HasPath(before, path)
    modifies reader`offset
    ensures reader.Valid()
    ensures issue.None? ==> ParseEntry(old(reader.Rest()), before) == Got(e, reader.Rest())
    ensures issue.Some? ==> ParseEntry(old(reader.Rest()), before) == Bad(issue.value)
  {
    hide LE, FromLE, TotalBytes, HasPath, ValidPackagePath, Utf8.Scalars, Utf8.EncodeAll, ManifestPath;
    ghost var s := reader.Rest();
    e := Entry([], []);
    var got, pathLength := reader.ReadU16();
    if !got {
      return e, Some(Truncated);
    }
    var contentLength: nat;
    got, contentLength := reader.ReadU64();
    if !got {
      return e, Some(Truncated);
    }
    ghost var body := reader.Rest();
    assert body == s[2..][8..];
    if pathLength == 0 || pathLength > MAX_PATH {
      return e, Some(InvalidPath);
    }
    if contentLength > MAX_ENTRY {
      return e, Some(EntryTooLarge);
    }
    if total > MAX_TOTAL - contentLength {
      return e, Some(TotalTooLarge);
    }
    var path: Text;
    got, path := reader.ReadBytes(pathLength);
    if !got {
      return e, Some(Truncated);
    }
    var utf8 := Utf8.ValidUtf8(path);
    var shaped := CheckPackagePath(path);
    if !utf8 || !shaped || path[|path| - 1] == SLASH {
      return e, Some(InvalidPath);
    }
    assert GoodPath(path);
    if path in seen {
      return e, Some(DuplicateEntry);
    }
    if path == ManifestPath() && contentLength > MAX_MANIFEST {
      return e, Some(ManifestTooLarge);
    }
    var contents: seq<byte>;
    got, contents := reader.ReadBytes(contentLength);
    if !got {
      return e, Some(Truncated);
    }
    return Entry(path, contents), None;
  }

  method ReadEntries(reader: ByteReader, count: nat) returns (es: seq<Entry>, manifestSeen: bool, issue: Option<Issue>)
    requires reader.Valid()
    modifies reader`offset
    ensures reader.Valid()
    ensures issue.None? ==> ParseEntries(old(reader.Rest()), [], count) == Got(es, reader.Rest()) && manifestSeen == HasPath(es, ManifestPath())
    ensures issue.Some? ==> ParseEntries(old(reader.Rest()), [], count) == Bad(issue.value)
  {
    hide ParseEntry, ManifestPath;
    es, manifestSeen := [], false;
    var seen: set<Text> := {};
    var total: nat := 0;
    var i: nat := 0;
    while i < count
      invariant 0 <= i <= count && reader.Valid()
      invariant total == TotalBytes(es) && manifestSeen == HasPath(es, ManifestPath())
      invariant forall path :: path in seen <==> HasPath(es, path)
      invariant ParseEntries(reader.Rest(), es, count - i) == ParseEntries(old(reader.Rest()), [], count)
    {
      var e, bad := ReadEntry(reader, es, seen, total);
      if bad.Some? {
        return es, manifestSeen, bad;
      }
      AddedEntry(es, e);
      total := total + |e.contents|;
      manifestSeen := manifestSeen || e.path == ManifestPath();
      seen := seen + {e.path};
      es := es + [e];
      i := i + 1;
    }
    issue := None;
  }

  lemma AddedEntry(es: seq<Entry>, e: Entry)
    ensures TotalBytes(es + [e]) == TotalBytes(es) + |e.contents|
    ensures forall path :: HasPath(es + [e], path) <==> HasPath(es, path) || e.path == path
  {
    assert (es + [e])[..|es|] == es;
    forall path
      ensures HasPath(es + [e], path) <==> HasPath(es, path) || e.path == path
    {
      assert forall i | 0 <= i < |es| :: (es + [e])[i] == es[i];
      assert (es + [e])[|es|] == e;
    }
  }

  method ReadHeader(reader: ByteReader) returns (count: nat, reserved: bool, issue: Option<Issue>)
    requires reader.Valid()
    modifies reader`offset
    ensures reader.Valid()
    ensures issue.None? ==> ParseHeader(old(reader.Rest())) == (Got(count, reader.Rest()), reserved)
    ensures issue.Some? ==> ParseHeader(old(reader.Rest())) == (Bad(issue.value), reserved)
  {
    hide FromLE, Magic;
    ghost var s := reader.Rest();
    count, reserved := 0, false;
    if reader.Remaining() == 0 {
      return 0, false, Some(EmptyArchive);
    }
    if reader.Remaining() > MAX_PACKAGE {
      return 0, false, Some(PackageTooLarge);
    }
    var got, magic := reader.ReadBytes(4);
    if !got {
      return 0, false, Some(Truncated);
    }
    if magic != Magic() {
      return 0, false, Some(InvalidMagic);
    }
    var version: byte;
    got, version := reader.ReadU8();
    if !got {
      return 0, false, Some(Truncated);
    }
    assert version == s[4] && reader.Rest() == s[5..];
    if version != 1 {
      return 0, false, Some(UnsupportedVersion);
    }
    var i := 0;
    while i < 3
      invariant 0 <= i <= 3 && reader.Valid() && 5 + i <= |s| && reader.Rest() == s[5 + i..]
      invariant reserved == exists j | 5 <= j < 5 + i && j < 8 :: s[j] != 0
    {
      var value: byte;
      got, value := reader.ReadU8();
      if !got {
        return 0, reserved, Some(Truncated);
      }
      assert value == s[5 + i];
      if value != 0 {
        reserved := true;
      }
      i := i + 1;
    }
    got, count := reader.ReadU32();
    if !got {
      return 0, reserved, Some(Truncated);
    }
    assert reader.Rest() == s[12..];
    if count == 0 || count > MAX_ENTRIES {
      return 0, reserved, Some(InvalidCount);
    }
    issue := None;
  }

  method DecodeArchive(name: Text, bytes: seq<byte>) returns (d: Decoded)
    ensures d == Decode(name, bytes)
  {
    hide ParseHeader, ParseEntries, Suffix, ManifestPath, HasPath, EndsWith;
    var issues: seq<Issue> := if EndsWith(name, Suffix()) then [] else [InvalidSuffix];
    var reader := new ByteReader(bytes);
    var count, reserved, bad := ReadHeader(reader);
    issues := issues + if reserved then [InvalidReserved] else [];
    if bad.Some? {
      return Decoded(None, issues + [bad.value]);
    }
    var es, manifestSeen, stuck := ReadEntries(reader, count);
    if stuck.Some? {
      return Decoded(None, issues + [stuck.value]);
    }
    var last: seq<Issue> := if manifestSeen then [] else [MissingManifest];
    last := last + if reader.Remaining() == 0 then [] else [TrailingBytes];
    issues := issues + last;
    d := Decoded(if issues == [] then Some(es) else None, issues);
  }

  // What it accepts.

  /** Entries that may stand at the front of an acceptable list. */
  ghost predicate GoodSoFar(es: seq<Entry>) {
    && (forall i | 0 <= i < |es| :: GoodEntry(es[i]))
    && (forall i, j | 0 <= i < j < |es| :: es[i].path != es[j].path)
    && TotalBytes(es) <= MAX_TOTAL
  }

  lemma GoodStep(es: seq<Entry>, e: Entry)
    ensures GoodSoFar(es + [e]) <==>
              GoodSoFar(es) && GoodEntry(e) && !HasPath(es, e.path) && TotalBytes(es) + |e.contents| <= MAX_TOTAL
  {
    hide GoodEntry;
    AddedEntry(es, e);
    var all := es + [e];
    assert forall i | 0 <= i < |es| :: all[i] == es[i];
    assert all[|es|] == e;
  }

  lemma EntryParts(e: Entry, rest: seq<byte>)
    requires |e.path| < 0x1_0000 && |e.contents| < U64_LIMIT
    ensures var s := EntryBytes(e) + rest;
      && |s| >= 10 && FromLE(s[..2]) == |e.path| && FromLE(s[2..][..8]) == |e.contents|
      && s[2..][8..] == e.path + e.contents + rest
  {
    hide LE, FromLE, Pow256;
    Pow256Values();
    FromLEOfLE(|e.path|, 2);
    FromLEOfLE(|e.contents|, 8);
    var s := EntryBytes(e) + rest;
    assert s[..2] == LE(|e.path|, 2);
    assert s[2..] == LE(|e.contents|, 8) + (e.path + e.contents + rest);
    assert s[2..][..8] == LE(|e.contents|, 8);
  }

  /** A good entry's bytes parse as that entry, and only those do. */
  lemma ParseEntryExactly(s: seq<byte>, before: seq<Entry>, e: Entry, rest: seq<byte>)
    ensures ParseEntry(s, before) == Got(e, rest) <==>
              && s == EntryBytes(e) + rest && GoodEntry(e) && !HasPath(before, e.path)
              && TotalBytes(before) + |e.contents| <= MAX_TOTAL
  {
    hide *;
    if ParseEntry(s, before) == Got(e, rest) {
      EntryFromParse(s, before, e, rest);
    }
    if s == EntryBytes(e) + rest && GoodEntry(e) && !HasPath(before, e.path) && TotalBytes(before) + |e.contents| <= MAX_TOTAL {
      EntryParses(before, e, rest);
    }
  }

  lemma EntryParses(before: seq<Entry>, e: Entry, rest: seq<byte>)
    requires GoodEntry(e) && !HasPath(before, e.path) && TotalBytes(before) + |e.contents| <= MAX_TOTAL
    ensures ParseEntry(EntryBytes(e) + rest, before) == Got(e, rest)
  {
    hide GoodPath, LE, FromLE, EntryBytes, ManifestPath, HasPath, TotalBytes;
    PathBound(e.path);
    EntryParts(e, rest);
    var body := e.path + e.contents + rest;
    assert body[..|e.path|] == e.path;
    assert body[|e.path|..] == e.contents + rest;
  }

  lemma PathBound(path: Text)
    requires GoodPath(path)
    ensures 1 <= |path| <= MAX_PATH
  {
  }

  lemma EntryFromParse(s: seq<byte>, before: seq<Entry>, e: Entry, rest: seq<byte>)
    requires ParseEntry(s, before) == Got(e, rest)
    ensures s == EntryBytes(e) + rest && GoodEntry(e) && !HasPath(before, e.path) && TotalBytes(before) + |e.contents| <= MAX_TOTAL
  {
    hide GoodPath, LE, FromLE, ManifestPath, HasPath, TotalBytes;
    LEOfFromLE(s[..2]);
    LEOfFromLE(s[2..][..8]);
    Rejoined(s, |e.path|, |e.contents|);
  }

  lemma Rejoined(s: seq<byte>, p: nat, c: nat)
    requires |s| >= 10 && p + c <= |s| - 10
    ensures s == s[..2] + s[2..][..8] + s[2..][8..][..p] + s[2..][8..][p..][..c] + s[2..][8..][p..][c..]
  {
    var body := s[2..][8..];
    assert body == body[..p] + (body[p..][..c] + body[p..][c..]);
    assert s == s[..2] + (s[2..][..8] + body);
  }

  lemma {:induction false} ParseEntriesExactly(s: seq<byte>, before: seq<Entry>, count: nat, es: seq<Entry>, rest: seq<byte>)
    requires GoodSoFar(before)
    ensures ParseEntries(s, before, count) == Got(es, rest) <==>
              && |es| == |before| + count && before <= es && GoodSoFar(es)
              && s == EntriesBytes(es[|before|..]) + rest
    decreases count
  {
    hide ParseEntry, GoodSoFar, EntryBytes, EntriesBytes;
    if count == 0 {
      NoMoreEntries(s, before, es, rest);
    } else {
      var p := ParseEntry(s, before);
      if p.Got? {
        ParseEntryExactly(s, before, p.value, p.rest);
        GoodStep(before, p.value);
        ParseEntriesExactly(p.rest, before + [p.value], count - 1, es, rest);
        if ParseEntries(s, before, count) == Got(es, rest) {
          FirstEntry(es, |before|, p.value);
        }
      }
      if |es| == |before| + count && before <= es && GoodSoFar(es) && s == EntriesBytes(es[|before|..]) + rest {
        var e := es[|before|];
        assert before + [e] <= es;
        FirstEntry(es, |before|, e);
        GoodPrefix(es, |before| + 1);
        GoodStep(before, e);
        assert es[..|before| + 1] == before + [e];
        assert s == EntryBytes(e) + (EntriesBytes(es[|before| + 1..]) + rest);
        ParseEntryExactly(s, before, e, EntriesBytes(es[|before| + 1..]) + rest);
      }
    }
  }

  lemma NoMoreEntries(s: seq<byte>, before: seq<Entry>, es: seq<Entry>, rest: seq<byte>)
    requires GoodSoFar(before)
    ensures ParseEntries(s, before, 0) == Got(es, rest) <==>
              |es| == |before| && before <= es && GoodSoFar(es) && s == EntriesBytes(es[|before|..]) + rest
  {
    hide GoodSoFar;
    assert |es| == |before| && before <= es ==> es == before;
    assert es == before ==> EntriesBytes(es[|before|..]) + rest == rest;
  }

  lemma FirstEntry(es: seq<Entry>, k: nat, e: Entry)
    requires k < |es| && es[k] == e
    ensures EntriesBytes(es[k..]) == EntryBytes(e) + EntriesBytes(es[k + 1..])
  {
    hide EntryBytes;
    assert es[k..][1..] == es[k + 1..];
  }

  lemma {:induction false} GoodPrefix(es: seq<Entry>, k: nat)
    requires GoodSoFar(es) && k <= |es|
    ensures GoodSoFar(es[..k])
    decreases |es| - k
  {
    hide GoodSoFar;
    if k == |es| {
      assert es[..k] == es;
    } else {
      GoodPrefix(es, k + 1);
      assert es[..k + 1] == es[..k] + [es[k]];
      GoodStep(es[..k], es[k]);
    }
  }

  lemma HeaderExactly(s: seq<byte>, count: nat, rest: seq<byte>)
    requires count < 0x1_0000_0000
    ensures ParseHeader(s) == (Got(count, rest), false) <==> |s| <= MAX_PACKAGE && s == Header(count) + rest && 1 <= count <= MAX_ENTRIES
  {
    Pow256Values();
    FromLEOfLE(count, 4);
    if ParseHeader(s) == (Got(count, rest), false) {
      LEOfFromLE(s[8..][..4]);
      hide LE, FromLE;
      assert s[5] == 0 && s[6] == 0 && s[7] == 0;
      assert s == s[..4] + [s[4]] + [s[5], s[6], s[7]] + s[8..][..4] + s[12..];
    }
    if |s| <= MAX_PACKAGE && s == Header(count) + rest && 1 <= count <= MAX_ENTRIES {
      hide LE, FromLE;
      assert s[..4] == Magic() && s[4] == 1 && s[8..][..4] == LE(count, 4) && s[12..] == rest;
      assert s[5] == 0 && s[6] == 0 && s[7] == 0;
    }
  }

  /** The decoder accepts exactly the serialisations of acceptable entry lists: decoding a serialised list returns it,
      and an accepted archive is the serialisation of what it decodes to. */
  lemma DecodesExactly(name: Text, s: seq<byte>, es: seq<Entry>)
    ensures Decode(name, s).entries == Some(es) <==>
              EndsWith(name, Suffix()) && |s| <= MAX_PACKAGE && Acceptable(es) && s == Serialised(es)
  {
    hide ParseHeader, ParseEntries, GoodEntry, Suffix, Header, EntriesBytes, ManifestPath, EndsWith, TotalBytes, HasPath;
    NothingYet();
    if Decode(name, s).entries == Some(es) {
      var (header, reserved) := ParseHeader(s);
      HeaderCount(s);
      HeaderExactly(s, header.value, header.rest);
      ParseEntriesExactly(header.rest, [], header.value, es, []);
      assert es[0..] == es;
      assert EntriesBytes(es) + [] == EntriesBytes(es);
    }
    if EndsWith(name, Suffix()) && |s| <= MAX_PACKAGE && Acceptable(es) && s == Serialised(es) {
      HeaderExactly(s, |es|, EntriesBytes(es));
      assert es[0..] == es;
      assert EntriesBytes(es) + [] == EntriesBytes(es);
      ParseEntriesExactly(EntriesBytes(es), [], |es|, es, []);
    }
  }

  lemma NothingYet()
    ensures GoodSoFar([])
  {
  }

  lemma HeaderCount(s: seq<byte>)
    ensures ParseHeader(s).0.Got? ==> ParseHeader(s).0.value <= MAX_ENTRIES
  {
    hide FromLE;
  }
}
