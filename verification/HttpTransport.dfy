/** The HTTP transport: streamed chunks written into a staged file at absolute offsets. */
module HttpTransport {
  import opened Bytes
  import opened Wrappers
  import opened DownloadPlan
  import opened StagedPaths

  // Files.

  /** What identifies the bytes behind a URL. */
  datatype Version = Version(url: Text, etag: Option<Text>, lastModified: Option<Text>)

  /** A byte of a staged file, with the version it was fetched from: that part nothing depends on. */
  datatype Cell = Cell(value: byte, from: Option<Version>)

  function Gaps(n: nat): (g: seq<Cell>)
    ensures |g| == n
  {
    seq(n, i => Cell(0, None))
  }

  function Tagged(v: Version, data: seq<byte>): (cells: seq<Cell>)
    ensures |cells| == |data|
  {
    seq(|data|, i requires 0 <= i < |data| => Cell(data[i], Some(v)))
  }

  /** The bytes of a staged file. */
  function Contents(file: seq<Cell>): (data: seq<byte>)
    ensures |data| == |file|
  {
    seq(|file|, i requires 0 <= i < |file| => file[i].value)
  }

  /** Writing past the end of a file fills the gap with zeros; writing nothing changes nothing. */
  function WriteAt(file: seq<Cell>, offset: nat, data: seq<Cell>): seq<Cell> {
    if data == [] then file
    else
      (if offset <= |file| then file[..offset] else file + Gaps(offset - |file|))
      + data
      + (if offset + |data| < |file| then file[offset + |data|..] else [])
  }

  /** Every byte of the file after a write: the data where it went, the old bytes elsewhere, zeros in a gap. */
  lemma WrittenBytes(file: seq<Cell>, offset: nat, data: seq<Cell>)
    ensures |WriteAt(file, offset, data)| == if data != [] && offset + |data| > |file| then offset + |data| else |file|
    ensures forall x | offset <= x < offset + |data| :: WriteAt(file, offset, data)[x] == data[x - offset]
    ensures forall x | 0 <= x < |file| && !(offset <= x < offset + |data|) :: WriteAt(file, offset, data)[x] == file[x]
    ensures data != [] ==> forall x | |file| <= x < offset :: WriteAt(file, offset, data)[x] == Cell(0, None)
  {
  }

  lemma WriteTwice(file: seq<Cell>, offset: nat, a: seq<Cell>, b: seq<Cell>)
    ensures WriteAt(WriteAt(file, offset, a), offset + |a|, b) == WriteAt(file, offset, a + b)
  {
    hide WriteAt;
    var once := WriteAt(file, offset, a);
    WrittenBytes(file, offset, a);
    WrittenBytes(once, offset + |a|, b);
    WrittenBytes(file, offset, a + b);
    assert a == [] ==> a + b == b;
    assert b == [] ==> a + b == a;
    if a == [] {
      WroteNothing(file, offset);
    }
  }

  lemma WroteNothing(file: seq<Cell>, offset: nat)
    ensures WriteAt(file, offset, []) == file
  {
  }

  lemma TaggedTogether(v: Version, a: seq<byte>, b: seq<byte>)
    ensures Tagged(v, a + b) == Tagged(v, a) + Tagged(v, b)
  {
  }

  // What the client and the disk answer.

  datatype TransportRequest = TransportRequest(
    id: Text, url: Text, referrer: Text, begin: u64, end: u64, resume: u64, etag: Option<Text>, lastModified: Option<Text>)

  function VersionAsked(r: TransportRequest): Version {
    Version(r.url, r.etag, r.lastModified)
  }

  /** One streamed reply: the chunks handed over, how many of them the disk takes, how many bytes of the
      refused one still reach it, and what the client says at the end. */
  datatype Stream = Stream(chunks: seq<seq<byte>>, accepts: nat, torn: nat, completed: bool, retryable: bool)

  datatype Head = Head(contentLength: Option<u64>, acceptsRanges: bool, etag: Option<Text>, lastModified: Option<Text>)

  /** The HTTP client, arbitrary: each answer may depend on the number of calls made before. */
  datatype Client = Client(inspect: (nat, Text, Text) -> Option<Head>, stream: (nat, TransportRequest) -> Stream)

  function Inspected(head: Option<Head>): Option<Metadata> {
    if head.None? || head.value.contentLength.None? || head.value.contentLength.value == 0 then None
    else Some(Metadata(head.value.contentLength.value, head.value.acceptsRanges, head.value.etag, head.value.lastModified))
  }

  /** Where a request starts writing. */
  function Base(r: TransportRequest): u64 {
    (r.begin as int + r.resume as int) % U64_LIMIT
  }

  /** The file after the first k chunks, each written at the machine sum of the base and the bytes before it. */
  function AfterChunks(file: seq<Cell>, v: Version, base: u64, chunks: seq<seq<byte>>, k: nat): seq<Cell>
    requires k <= |chunks|
  {
    if k == 0 then file
    else WriteAt(AfterChunks(file, v, base, chunks, k - 1), Offset(base, chunks, k - 1), Tagged(v, chunks[k - 1]))
  }

  function Offset(base: u64, chunks: seq<seq<byte>>, k: nat): u64
    requires k <= |chunks|
  {
    (base as int + |Flatten(chunks[..k])|) % U64_LIMIT
  }

  /** The chunks that are written whole. */
  function WholeChunks(open: bool, s: Stream): (k: nat)
    ensures k <= |s.chunks|
  {
    if open then Min(s.accepts, |s.chunks|) else 0
  }

  function TornPart(open: bool, s: Stream): seq<byte> {
    var k := WholeChunks(open, s);
    if open && k < |s.chunks| then s.chunks[k][..Min(s.torn, |s.chunks[k]|)] else []
  }

  function Delivered(file: seq<Cell>, v: Version, base: u64, s: Stream): seq<Cell> {
    var k := WholeChunks(true, s);
    WriteAt(AfterChunks(file, v, base, s.chunks, k), Offset(base, s.chunks, k), Tagged(v, TornPart(true, s)))
  }

  function ResultOf(open: bool, s: Stream): TransferResult {
    var k := WholeChunks(open, s);
    TransferResult(k == |s.chunks| && s.completed, k == |s.chunks| && s.retryable, |Flatten(s.chunks[..k])| % U64_LIMIT)
  }

  /** The writer finds a download's file by its id, among the names of the files opened since the program started. */
  predicate Writable(files: map<Path, seq<Cell>>, names: map<Text, Text>, id: Text) {
    id in names && StagedPath(names[id], id) in files
  }

  function FilesAfter(files: map<Path, seq<Cell>>, names: map<Text, Text>, r: TransportRequest, s: Stream): map<Path, seq<Cell>> {
    if Writable(files, names, r.id)
    then files[StagedPath(names[r.id], r.id) := Delivered(files[StagedPath(names[r.id], r.id)], VersionAsked(r), Base(r), s)]
    else files
  }

  class HttpDownloadTransport {
    const client: Client
    var files: map<Path, seq<Cell>>
    var names: map<Text, Text>
    var calls: nat

    constructor (c: Client, staged: map<Path, seq<Cell>>)
      ensures client == c && files == staged && names == map[] && calls == 0
    {
      client, files, names, calls := c, staged, map[], 0;
    }

    /** The staged file of a download is made ready: an existing one is kept. */
    method Prepare(id: Text, name: Text)
      modifies this`files, this`names
      ensures names == old(names)[id := name]
      ensures files == if StagedPath(name, id) in old(files) then old(files) else old(files)[StagedPath(name, id) := []]
    {
      names := names[id := name];
      if StagedPath(name, id) !in files {
        files := files[StagedPath(name, id) := []];
      }
    }

    method Store(path: Path, file: seq<Cell>)
      modifies this`files
      ensures files == old(files)[path := file]
    {
      files := files[path := file];
    }

    method Discard(path: Path)
      modifies this`files
      ensures files == old(files) - {path}
    {
      files := files - {path};
    }

    method Inspect(url: Text, referrer: Text) returns (m: Option<Metadata>)
      modifies this`calls
      ensures m == Inspected(client.inspect(old(calls), url, referrer))
      ensures calls == old(calls) + 1
    {
      var head := client.inspect(calls, url, referrer);
      calls := calls + 1;
      if head.None? || head.value.contentLength.None? || head.value.contentLength.value == 0 {
        return None;
      }
      return Some(Metadata(head.value.contentLength.value, head.value.acceptsRanges, head.value.etag, head.value.lastModified));
    }

    /** The disk side of one chunk: the runtime's writer over the staged files. */
    method Write(id: Text, offset: nat, data: seq<Cell>, accepted: bool, torn: nat) returns (ok: bool)
      modifies this`files
      ensures ok == (Writable(old(files), names, id) && accepted)
      ensures files == if Writable(old(files), names, id)
                       then old(files)[StagedPath(names[id], id) := WriteAt(old(files)[StagedPath(names[id], id)], offset, if accepted then data else data[..Min(torn, |data|)])]
                       else old(files)
    {
      if id !in names || StagedPath(names[id], id) !in files {
        return false;
      }
      var path := StagedPath(names[id], id);
      files := files[path := WriteAt(files[path], offset, if accepted then data else data[..Min(torn, |data|)])];
      return accepted;
    }

    method Transfer(r: TransportRequest) returns (result: TransferResult)
      modifies this`files, this`calls
      ensures var s := client.stream(old(calls), r);
        && files == FilesAfter(old(files), names, r, s)
        && result == ResultOf(Writable(old(files), names, r.id), s)
      ensures calls == old(calls) + 1
    {
      hide WriteAt, Flatten, AfterChunks, Offset, FilesAfter, ResultOf, Tagged;
      var s := client.stream(calls, r);
      calls := calls + 1;
      var base: u64 := (r.begin as int + r.resume as int) % U64_LIMIT;
      var written: u64 := 0;
      ghost var before := files;
      var i := 0;
      NoChunksYet(before, names, r, s);
      while i < |s.chunks|
        invariant 0 <= i <= |s.chunks| && calls == old(calls) + 1
        invariant i > 0 ==> Writable(before, names, r.id) && i <= s.accepts
        invariant files == FilesSoFar(before, names, r, s, i)
        invariant written == |Flatten(s.chunks[..i])| % U64_LIMIT
      {
        ChunkStep(before, names, r, s, i);
        var cells := Tagged(VersionAsked(r), s.chunks[i]);
        var ok := Write(r.id, (base as int + written as int) % U64_LIMIT, cells, i < s.accepts, s.torn);
        if !ok {
          StreamEnds(before, names, r, s, i);
          return TransferResult(false, false, written);
        }
        written := (written as int + |s.chunks[i]|) % U64_LIMIT;
        i := i + 1;
      }
      StreamEnds(before, names, r, s, i);
      return TransferResult(s.completed, s.retryable, written);
    }
  }

  // The steps of the streaming loop.

  function FilesSoFar(files: map<Path, seq<Cell>>, names: map<Text, Text>, r: TransportRequest, s: Stream, i: nat): map<Path, seq<Cell>>
    requires i <= |s.chunks|
  {
    if Writable(files, names, r.id)
    then files[StagedPath(names[r.id], r.id) := AfterChunks(files[StagedPath(names[r.id], r.id)], VersionAsked(r), Base(r), s.chunks, i)]
    else files
  }

  lemma NoChunksYet(files: map<Path, seq<Cell>>, names: map<Text, Text>, r: TransportRequest, s: Stream)
    ensures FilesSoFar(files, names, r, s, 0) == files
    ensures |Flatten(s.chunks[..0])| == 0
  {
  }

  lemma OffsetAt(base: u64, chunks: seq<seq<byte>>, i: nat)
    requires i < |chunks|
    ensures Offset(base, chunks, i) == (base as int + |Flatten(chunks[..i])| % U64_LIMIT) % U64_LIMIT
    ensures |Flatten(chunks[..i + 1])| % U64_LIMIT == (|Flatten(chunks[..i])| % U64_LIMIT + |chunks[i]|) % U64_LIMIT
  {
    assert chunks[..i + 1][..i] == chunks[..i];
  }

  lemma ChunkStep(files: map<Path, seq<Cell>>, names: map<Text, Text>, r: TransportRequest, s: Stream, i: nat)
    requires i < |s.chunks|
    ensures var at := (Base(r) as int + |Flatten(s.chunks[..i])| % U64_LIMIT) % U64_LIMIT;
      && at == Offset(Base(r), s.chunks, i)
      && (Writable(files, names, r.id) ==>
            var path := StagedPath(names[r.id], r.id);
            FilesSoFar(files, names, r, s, i + 1)
            == FilesSoFar(files, names, r, s, i)[path := WriteAt(FilesSoFar(files, names, r, s, i)[path], at, Tagged(VersionAsked(r), s.chunks[i]))])
    ensures |Flatten(s.chunks[..i + 1])| % U64_LIMIT == (|Flatten(s.chunks[..i])| % U64_LIMIT + |s.chunks[i]|) % U64_LIMIT
  {
    hide WriteAt, Flatten, Tagged;
    OffsetAt(Base(r), s.chunks, i);
  }

  /** Where the loop stops is where the specification says the writing stops. */
  lemma StreamEnds(files: map<Path, seq<Cell>>, names: map<Text, Text>, r: TransportRequest, s: Stream, i: nat)
    requires i <= |s.chunks| && (i > 0 ==> Writable(files, names, r.id) && i <= s.accepts)
    requires i < |s.chunks| ==> !Writable(files, names, r.id) || s.accepts <= i
    ensures ResultOf(Writable(files, names, r.id), s) ==
              TransferResult(i == |s.chunks| && s.completed, i == |s.chunks| && s.retryable, |Flatten(s.chunks[..i])| % U64_LIMIT)
    ensures i == |s.chunks| ==> FilesAfter(files, names, r, s) == FilesSoFar(files, names, r, s, i)
    ensures i < |s.chunks| ==>
              FilesAfter(files, names, r, s) ==
              if Writable(files, names, r.id)
              then
                var path, cells := StagedPath(names[r.id], r.id), Tagged(VersionAsked(r), s.chunks[i]);
                FilesSoFar(files, names, r, s, i)[path := WriteAt(FilesSoFar(files, names, r, s, i)[path], Offset(Base(r), s.chunks, i), cells[..Min(s.torn, |cells|)])]
              else files
  {
    hide WriteAt, Flatten, AfterChunks, Offset;
    if Writable(files, names, r.id) && i == |s.chunks| {
      WroteNothing(AfterChunks(files[StagedPath(names[r.id], r.id)], VersionAsked(r), Base(r), s.chunks, i), Offset(Base(r), s.chunks, i));
    } else if i < |s.chunks| {
      assert Tagged(VersionAsked(r), s.chunks[i][..Min(s.torn, |s.chunks[i]|)]) == Tagged(VersionAsked(r), s.chunks[i])[..Min(s.torn, |s.chunks[i]|)];
    }
  }

  /** How a reply is cut into chunks does not matter: the file is as after one write of all that arrived. */
  lemma {:induction false} ChunksAreOneWrite(file: seq<Cell>, v: Version, base: u64, chunks: seq<seq<byte>>, k: nat)
    requires k <= |chunks| && base as int + |Flatten(chunks[..k])| < U64_LIMIT
    ensures AfterChunks(file, v, base, chunks, k) == WriteAt(file, base, Tagged(v, Flatten(chunks[..k])))
  {
    hide WriteAt, Tagged;
    if k == 0 {
      assert Tagged(v, Flatten(chunks[..k])) == [];
      WroteNothing(file, base);
    } else {
      assert chunks[..k][..k - 1] == chunks[..k - 1];
      ChunksAreOneWrite(file, v, base, chunks, k - 1);
      WriteTwice(file, base, Tagged(v, Flatten(chunks[..k - 1])), Tagged(v, chunks[k - 1]));
      TaggedTogether(v, Flatten(chunks[..k - 1]), chunks[k - 1]);
    }
  }

  function Payload(s: Stream): seq<byte> {
    Flatten(s.chunks[..WholeChunks(true, s)]) + TornPart(true, s)
  }

  lemma DeliveredIsOneWrite(file: seq<Cell>, v: Version, base: u64, s: Stream)
    requires base as int + |Flatten(s.chunks[..WholeChunks(true, s)])| < U64_LIMIT
    ensures Delivered(file, v, base, s) == WriteAt(file, base, Tagged(v, Payload(s)))
  {
    hide WriteAt, TornPart, Flatten, WholeChunks, Tagged;
    var k := WholeChunks(true, s);
    ChunksAreOneWrite(file, v, base, s.chunks, k);
    WriteTwice(file, base, Tagged(v, Flatten(s.chunks[..k])), Tagged(v, TornPart(true, s)));
    TaggedTogether(v, Flatten(s.chunks[..k]), TornPart(true, s));
  }

  // Honest replies.

  /** The bytes behind each version. */
  type Origin = Version -> seq<byte>

  /** The client hands over bytes of the requested range in order, may stop anywhere,
      and says completed only when it handed over all of them. */
  ghost predicate HonestStream(origin: seq<byte>, r: TransportRequest, s: Stream) {
    r.begin as int + r.resume as int <= r.end as int + 1 <= |origin| ==>
      var range := origin[r.begin as int + r.resume as int..r.end as int + 1];
      && Flatten(s.chunks) <= range
      && (s.completed ==> Flatten(s.chunks) == range)
  }

  /** This byte of the file was fetched from this version. */
  ghost predicate FromAt(v: Version, file: seq<Cell>, x: int) {
    0 <= x < |file| && file[x].from == Some(v)
  }

  ghost predicate FromOver(v: Version, file: seq<Cell>, lo: int, hi: int) {
    forall x | lo <= x < hi :: FromAt(v, file, x)
  }

  /** What a cell holds where it holds what it says it was fetched from. */
  ghost predicate RenderedAt(o: Origin, cell: Cell, x: nat) {
    if cell.from.None? then cell.value == 0
    else x < |o(cell.from.value)| && cell.value == o(cell.from.value)[x]
  }

  /** Every byte is the one its version has at that place, or a zero that was never fetched. */
  ghost predicate Rendered(o: Origin, file: seq<Cell>) {
    forall x | 0 <= x < |file| :: RenderedAt(o, file[x], x)
  }

  lemma {:induction false} FlattenPrefix(chunks: seq<seq<byte>>, k: nat)
    requires k <= |chunks|
    ensures Flatten(chunks[..k]) <= Flatten(chunks)
    ensures k < |chunks| ==> Flatten(chunks[..k]) + chunks[k] <= Flatten(chunks)
    decreases |chunks| - k
  {
    if k == |chunks| {
      assert chunks[..k] == chunks;
    } else {
      assert chunks[..k + 1][..k] == chunks[..k];
      FlattenPrefix(chunks, k + 1);
    }
  }

  lemma PayloadPrefix(s: Stream)
    ensures Flatten(s.chunks[..WholeChunks(true, s)]) <= Payload(s) <= Flatten(s.chunks)
  {
    FlattenPrefix(s.chunks, WholeChunks(true, s));
  }

  /** What an honest reply writes: some bytes of the range from its start on, and at least those it is credited with. */
  lemma HonestWrite(o: Origin, file: seq<Cell>, r: TransportRequest, s: Stream)
    requires HonestStream(o(VersionAsked(r)), r, s)
    requires r.begin as int + r.resume as int <= r.end as int + 1 <= |o(VersionAsked(r))| < U64_LIMIT
    ensures var lo, hi, n := r.begin as int + r.resume as int, r.end as int + 1, ResultOf(true, s).transferred as int;
      && n <= |Payload(s)| <= hi - lo && Payload(s) == o(VersionAsked(r))[lo..lo + |Payload(s)|]
      && Delivered(file, VersionAsked(r), Base(r), s) == WriteAt(file, lo, Tagged(VersionAsked(r), Payload(s)))
      && (ResultOf(true, s).completed ==> lo + n == hi)
  {
    hide WriteAt, TornPart, Flatten, Tagged;
    var lo := r.begin as int + r.resume as int;
    PayloadPrefix(s);
    DeliveredIsOneWrite(file, VersionAsked(r), Base(r), s);
    assert s.chunks[..|s.chunks|] == s.chunks;
    assert Payload(s) <= o(VersionAsked(r))[lo..r.end as int + 1];
  }

  /** An honest reply credits only bytes it wrote, and completes only a whole range; outside the range it leaves
      every byte as it was, but for zeros in a gap; and every byte stays what its version has there. */
  lemma HonestDelivery(o: Origin, file: seq<Cell>, r: TransportRequest, s: Stream)
    requires HonestStream(o(VersionAsked(r)), r, s)
    requires r.begin as int + r.resume as int <= r.end as int + 1 <= |o(VersionAsked(r))| < U64_LIMIT
    ensures var v, after := VersionAsked(r), Delivered(file, VersionAsked(r), Base(r), s);
      var lo, hi, n := r.begin as int + r.resume as int, r.end as int + 1, ResultOf(true, s).transferred as int;
      && lo + n <= hi && (ResultOf(true, s).completed ==> lo + n == hi)
      && FromOver(v, after, lo, lo + n)
      && (forall x | FromAt(v, file, x) :: FromAt(v, after, x))
      && (forall x | 0 <= x < |after| && !(lo <= x < hi) :: after[x] == if x < |file| then file[x] else Cell(0, None))
      && |file| <= |after| && (|after| <= |file| || |after| <= |o(v)|)
      && (Rendered(o, file) ==> Rendered(o, after))
  {
    hide WriteAt, TornPart, Flatten, Delivered, ResultOf, Payload;
    HonestWrite(o, file, r, s);
    WrittenBytes(file, r.begin as int + r.resume as int, Tagged(VersionAsked(r), Payload(s)));
  }

  // Replies that differ in the bytes alone.

  ghost predicate AlikeStreams(s: Stream, t: Stream) {
    && |s.chunks| == |t.chunks| && (forall i | 0 <= i < |s.chunks| :: |s.chunks[i]| == |t.chunks[i]|)
    && t == s.(chunks := t.chunks)
  }

  /** A file with its bytes wiped: what is left is its length and where it was fetched from. */
  function Bare(file: seq<Cell>): (bare: seq<Cell>)
    ensures |bare| == |file|
  {
    seq(|file|, i requires 0 <= i < |file| => Cell(0, file[i].from))
  }

  lemma {:induction false} AlikeLengths(a: seq<seq<byte>>, b: seq<seq<byte>>)
    requires |a| == |b| && forall i | 0 <= i < |a| :: |a[i]| == |b[i]|
    ensures |Flatten(a)| == |Flatten(b)|
  {
    if a != [] {
      AlikeLengths(a[..|a| - 1], b[..|b| - 1]);
    }
  }

  lemma BareWrite(file: seq<Cell>, other: seq<Cell>, offset: nat, v: Version, data: seq<byte>, changed: seq<byte>)
    requires Bare(file) == Bare(other) && |data| == |changed|
    ensures Bare(WriteAt(file, offset, Tagged(v, data))) == Bare(WriteAt(other, offset, Tagged(v, changed)))
  {
    hide WriteAt;
    WrittenBytes(file, offset, Tagged(v, data));
    WrittenBytes(other, offset, Tagged(v, changed));
    assert |file| == |Bare(file)| == |Bare(other)| == |other|;
    forall x | 0 <= x < |file|
      ensures file[x].from == other[x].from
    {
      assert Bare(file)[x] == Bare(other)[x];
    }
  }

  lemma {:induction false} BareChunks(file: seq<Cell>, other: seq<Cell>, v: Version, base: u64, a: seq<seq<byte>>, b: seq<seq<byte>>, k: nat)
    requires Bare(file) == Bare(other) && k <= |a| == |b| && forall i | 0 <= i < |a| :: |a[i]| == |b[i]|
    ensures Bare(AfterChunks(file, v, base, a, k)) == Bare(AfterChunks(other, v, base, b, k))
    ensures Offset(base, a, k) == Offset(base, b, k)
  {
    hide WriteAt, Bare, Tagged;
    AlikeLengths(a[..k], b[..k]);
    if k > 0 {
      BareChunks(file, other, v, base, a, b, k - 1);
      BareWrite(AfterChunks(file, v, base, a, k - 1), AfterChunks(other, v, base, b, k - 1), Offset(base, a, k - 1), v, a[k - 1], b[k - 1]);
    }
  }

  /** Alike replies give alike files and the same result. */
  lemma AlikeDelivery(file: seq<Cell>, other: seq<Cell>, v: Version, base: u64, s: Stream, t: Stream)
    requires Bare(file) == Bare(other) && AlikeStreams(s, t)
    ensures Bare(Delivered(file, v, base, s)) == Bare(Delivered(other, v, base, t))
    ensures forall open :: ResultOf(open, s) == ResultOf(open, t)
  {
    hide WriteAt, Bare, Tagged, Flatten, AfterChunks, Offset;
    var k := WholeChunks(true, s);
    BareChunks(file, other, v, base, s.chunks, t.chunks, k);
    BareWrite(AfterChunks(file, v, base, s.chunks, k), AfterChunks(other, v, base, t.chunks, k), Offset(base, s.chunks, k), v, TornPart(true, s), TornPart(true, t));
    forall open: bool
      ensures ResultOf(open, s) == ResultOf(open, t)
    {
      AlikeLengths(s.chunks[..WholeChunks(open, s)], t.chunks[..WholeChunks(open, t)]);
    }
  }
}
