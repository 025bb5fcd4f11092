/** The run in which a commit takes the file of a running download: one download's file name is the path at which the
    other is staged. */
module TakenFiles {
  import opened Bytes
  import opened Wrappers
  import opened DownloadPlan
  import opened DownloadCheckpoint
  import opened StagedPaths
  import opened HttpTransport
  import opened TransferScheduler
  import opened SchedulerInvariants
  import opened SchedulerTheorems
  import opened Provenance
  import opened KeptFiles
  import opened NamedFiles
  import opened EndToEnd
  import opened StaleFiles

  const ONE := Metadata(1, false, None, None)

  /** A server with one zero behind one URL, which takes no ranges, and two ones behind every other. */
  function ZeroAndOnes(url: Text): Client {
    Client((n: nat, asked: Text, referrer: Text) => Some(if asked == url then Head(Some(1), false, None, None) else Head(Some(2), true, None, None)),
           (n: nat, r: TransportRequest) => Stream([Filling(if r.url == url then 0 else 1, r.end as int + 1 - r.begin as int - r.resume as int)], 1, 0, true, false))
  }

  function Filling(value: byte, n: int): (bytes: seq<byte>)
    ensures |bytes| == if n < 0 then 0 else n
  {
    seq(if n < 0 then 0 else n, i => value)
  }

  function ZeroOrOnes(url: Text): Origin {
    (v: Version) => if v.url == url then [0] else [1, 1]
  }

  lemma ZeroAndOnesIsHonest(url: Text)
    ensures HonestClient(ZeroAndOnes(url), ZeroOrOnes(url))
  {
    forall n: nat, r: TransportRequest
      ensures HonestStream(ZeroOrOnes(url)(VersionAsked(r)), r, ZeroAndOnes(url).stream(n, r))
    {
      var chunks := ZeroAndOnes(url).stream(n, r).chunks;
      assert chunks[..|chunks| - 1] == [];
      assert Flatten(chunks) == Filling(if r.url == url then 0 else 1, r.end as int + 1 - r.begin as int - r.resume as int);
    }
  }

  lemma Describes(url: Text, n: nat, r: Record)
    ensures Inspected(ZeroAndOnes(url).inspect(n, r.url, r.referrer)) == Some(if r.url == url then ONE else TWO)
  {
  }

  lemma Sends(url: Text, n: nat, r: TransportRequest)
    requires r.begin == r.end && r.resume == 0
    ensures ZeroAndOnes(url).stream(n, r) == OneByte(if r.url == url then 0 else 1, true)
  {
    assert Filling(if r.url == url then 0 else 1, 1) == [if r.url == url then 0 else 1];
  }

  /** The two downloads: the first is named as the second is staged. */
  predicate NamedAsStaged(a: Record, b: Record) {
    && a.id != [] && b.id != [] && a.id != b.id && a.url != [] && b.url != [] && a.url != b.url
    && b.segmentLimit == 16 && a.name == StagedPath(b.name, b.id)
  }

  function OnePlan(a: Record): Plan {
    Plan(a.id, a.url, a.referrer, ONE, [LOW], 0)
  }

  function TwoPlan(b: Record): Plan {
    Plan(b.id, b.url, b.referrer, TWO, [LOW, HIGH], 0)
  }

  lemma OneSegment(a: Record)
    ensures NewPlan(a, ONE, MAX_SEGMENTS) == OnePlan(a)
  {
    hide Start;
    StartBounds(1, 1, 0);
    assert Planned(1, 1, 0) == LOW;
    assert Layout(1, 1) == [LOW];
  }

  /** An activation without a checkpoint. */
  lemma StartedFresh(e: Engine, r: Record, m: Metadata, p: Plan)
    requires r.id !in e.checkpoints && r.id != [] && p == NewPlan(r, m, MAX_SEGMENTS) && p.id == r.id
    ensures Started(e, r, m) == e.(
        active := e.active + [Active(r, p, false, false, 0, |e.log|)],
        checkpoints := e.checkpoints[r.id := CheckpointOf(p)], over := e.over[r.id := NameOf(e, r.id)],
        bases := e.bases[r.id := Basis(p, StagedFile(e, r.id))],
        log := e.log + [Activated(p, StagedFile(e, r.id), true), Progress(p)])
  {
    hide NewPlan, StagedFile, CheckpointOf;
  }

  /** Both are queued. */
  lemma BothQueued(c: Client, a: Record, b: Record)
    requires NamedAsStaged(a, b)
    ensures Run(c, [Enqueue(a), Enqueue(b)]) == Empty().(
        pending := [a, b], names := map[a.id := a.name, b.id := b.name],
        files := map[StagedPath(a.name, a.id) := [], a.name := []])
  {
    hide StagedPath;
    var first: seq<Call> := [Enqueue(a)];
    assert [Enqueue(a), Enqueue(b)][..1] == first && first[..0] == [];
    StagedElsewhere(a.name, a.id);
    var e := Run(c, first);
    assert first[|first| - 1] == Enqueue(a) && Run(c, first[..0]) == Empty() && CanQueue(Empty(), a);
    assert e == Step(c, Empty(), Enqueue(a));
    assert e.files == map[StagedPath(a.name, a.id) := []] && e.names == map[a.id := a.name];
    assert e.pending == [a] && CanQueue(e, b);
    var f := Run(c, [Enqueue(a), Enqueue(b)]);
    assert f.files == map[StagedPath(a.name, a.id) := [], a.name := []] && f.names == map[a.id := a.name, b.id := b.name];
    assert f.pending == [a, b];
  }

  /** Both are active, over empty files, with nothing done. */
  ghost predicate BothStarted(e: Engine, a: Record, b: Record) {
    && |e.active| == 2 && e.pending == [] && e.paused == {} && e.cancelled == {}
    && e.active[0] == Active(a, OnePlan(a), false, false, 0, e.active[0].since)
    && e.active[1] == Active(b, TwoPlan(b), false, false, 0, e.active[1].since)
    && e.names == map[a.id := a.name, b.id := b.name] && e.files == map[StagedPath(a.name, a.id) := [], a.name := []]
    && a.id in e.bases && b.id in e.bases && AllKept(e.log) && e.taken == {}
  }

  lemma BothStart(a: Record, b: Record, e: Engine)
    requires NamedAsStaged(a, b)
    requires e == Empty().(pending := [a, b], names := map[a.id := a.name, b.id := b.name],
                           files := map[StagedPath(a.name, a.id) := [], a.name := []])
    ensures BothStarted(ActivateUpTo(ZeroAndOnes(a.url), e, 2), a, b)
  {
    hide ZeroAndOnes, StagedPath, NewPlan, Started, Inspected, CheckpointOf, AllKept;
    var c := ZeroAndOnes(a.url);
    Describes(a.url, e.calls, a);
    OneSegment(a);
    var asked := e.(pending := e.pending[1..], calls := e.calls + 1, log := e.log + [Described(a, Some(ONE))]);
    StartedFresh(asked, a, ONE, OnePlan(a));
    var f := ActivateOne(c, e);
    assert f == Started(asked, a, ONE);
    assert f.pending == [b];
    Describes(a.url, f.calls, b);
    TwoSegments(b);
    var again := f.(pending := f.pending[1..], calls := f.calls + 1, log := f.log + [Described(b, Some(TWO))]);
    StartedFresh(again, b, TWO, TwoPlan(b));
    var g := ActivateOne(c, f);
    assert g == Started(again, b, TWO);
    TwoActivations(c, e, f, g);
    KeptBy(asked.log, f.log);
    KeptBy(again.log, g.log);
    QuietKept([], asked.log);
    QuietKept(f.log, again.log);
  }

  lemma TwoActivations(c: Client, e: Engine, f: Engine, g: Engine)
    requires |e.pending| == 2 && |e.active| == 0 && f == ActivateOne(c, e) && |f.active| == 1 && f.pending != [] && g == ActivateOne(c, f)
    ensures ActivateUpTo(c, e, 2) == g
  {
    hide ActivateOne;
    assert ActivateUpTo(c, g, 0) == g;
    assert ActivateUpTo(c, f, 1) == g;
  }

  /** One more activation, over the file its progress was saved over. */
  lemma KeptBy(log: seq<Event>, longer: seq<Event>)
    requires AllKept(log) && |longer| == |log| + 2 && log <= longer
    requires longer[|log|].Activated? && longer[|log|].kept && !longer[|log| + 1].Activated?
    ensures AllKept(longer)
  {
    forall k | 0 <= k < |longer| && longer[k].Activated?
      ensures longer[k].kept
    {
      assert k < |log| ==> log[k] == longer[k];
    }
  }

  lemma QuietKept(log: seq<Event>, longer: seq<Event>)
    requires AllKept(log) && log <= longer && forall k | |log| <= k < |longer| :: !longer[k].Activated?
    ensures AllKept(longer)
  {
    forall k | 0 <= k < |longer| && longer[k].Activated?
      ensures longer[k].kept
    {
      assert k < |log| ==> log[k] == longer[k];
    }
  }

  function ZeroCell(a: Record): Cell {
    Cell(0, Some(Version(a.url, None, None)))
  }

  function OneCell(b: Record): Cell {
    Cell(1, Some(Version(b.url, None, None)))
  }

  function HalfPlan(b: Record): Plan {
    WithSegment(TwoPlan(b), 0, LOW.(done := 1, finished := true))
  }

  lemma HalfIs(b: Record)
    ensures HalfPlan(b) == WithSegment(TwoPlan(b), 0, LOW.(done := 1, finished := true))
  {
  }

  /** The first is finished, the second is half done. */
  ghost predicate BothRan(e: Engine, a: Record, b: Record) {
    && |e.active| == 2 && e.pending == [] && e.paused == {} && e.cancelled == {}
    && e.active[0].record == a && e.active[0].finished && !e.active[0].failed
    && e.active[0].plan.id == a.id && e.active[0].plan.metadata == ONE
    && e.active[1].record == b && !e.active[1].finished && !e.active[1].failed && e.active[1].plan == HalfPlan(b)
    && e.names == map[a.id := a.name, b.id := b.name]
    && e.files == map[StagedPath(a.name, a.id) := [ZeroCell(a)], a.name := [OneCell(b)]]
    && a.id in e.bases && b.id in e.bases && AllKept(e.log) && e.taken == {}
  }

  lemma WroteFirst(cell: Cell)
    ensures WriteAt([], 0, [cell]) == [cell]
  {
  }

  /** The first is finished, the second has not had its turn. */
  ghost predicate FirstRan(e: Engine, a: Record, b: Record) {
    && |e.active| == 2 && e.pending == [] && e.paused == {} && e.cancelled == {}
    && e.active[0].record == a && e.active[0].finished && !e.active[0].failed
    && e.active[0].plan.id == a.id && e.active[0].plan.metadata == ONE
    && e.active[1] == Active(b, TwoPlan(b), false, false, 0, e.active[1].since)
    && e.names == map[a.id := a.name, b.id := b.name]
    && e.files == map[StagedPath(a.name, a.id) := [ZeroCell(a)], a.name := []]
    && a.id in e.bases && b.id in e.bases && AllKept(e.log) && e.taken == {}
  }

  lemma FirstRuns(a: Record, b: Record, e: Engine)
    requires NamedAsStaged(a, b) && BothStarted(e, a, b)
    ensures FirstRan(RunOne(ZeroAndOnes(a.url), e, 0), a, b)
  {
    hide ZeroAndOnes, StagedPath, RunOne, WithSegment, CheckpointOf, WriteAt, AllKept, RequestOf, OneByte, AllFinished;
    var c := ZeroAndOnes(a.url);
    StagedElsewhere(a.name, a.id);
    RequestsAre(e.active[0], 0);
    Sends(a.url, e.calls, RequestOf(e.active[0], 0));
    OneByteRun(c, e, 0, 0, 0, true);
    OneDone(a);
    WroteFirst(ZeroCell(a));
    QuietKept(e.log, RunOne(c, e, 0).log);
  }

  lemma SecondStarts(a: Record, b: Record, e: Engine)
    requires NamedAsStaged(a, b) && FirstRan(e, a, b)
    ensures BothRan(RunOne(ZeroAndOnes(a.url), e, 1), a, b)
  {
    hide ZeroAndOnes, StagedPath, RunOne, WithSegment, CheckpointOf, WriteAt, AllKept, RequestOf, OneByte, AllFinished, HalfPlan;
    var c := ZeroAndOnes(a.url);
    StagedElsewhere(a.name, a.id);
    RequestsAre(e.active[1], 0);
    Sends(a.url, e.calls, RequestOf(e.active[1], 0));
    OneByteRun(c, e, 1, 0, 1, true);
    HalfIs(b);
    HalfIsOpen(b);
    WroteFirst(OneCell(b));
    QuietKept(e.log, RunOne(c, e, 1).log);
  }

  lemma BothRun(a: Record, b: Record, e: Engine)
    requires NamedAsStaged(a, b) && BothStarted(e, a, b)
    ensures BothRan(RunUpTo(ZeroAndOnes(a.url), e, 2), a, b)
  {
    hide ZeroAndOnes, RunOne, FirstRan, BothRan, BothStarted;
    var c := ZeroAndOnes(a.url);
    TwoActive(e, a, b);
    FirstRuns(a, b, e);
    SecondStarts(a, b, RunOne(c, e, 0));
    TwoRuns(c, e, RunOne(c, e, 0), RunOne(c, RunOne(c, e, 0), 1));
  }

  lemma OneDone(a: Record)
    ensures var p := WithSegment(OnePlan(a), 0, LOW.(done := 1, finished := true));
      AllFinished(p.segments) && p.id == a.id && p.metadata == ONE
  {
  }

  lemma HalfIsOpen(b: Record)
    ensures !AllFinished(HalfPlan(b).segments)
    ensures HalfPlan(b).segments == [LOW.(done := 1, finished := true), HIGH]
    ensures HalfPlan(b).id == b.id && HalfPlan(b).url == b.url && HalfPlan(b).metadata == TWO
  {
    assert HIGH in HalfPlan(b).segments;
  }

  lemma TwoRuns(c: Client, e: Engine, f: Engine, g: Engine)
    requires |e.active| == 2 && f == RunOne(c, e, 0) && g == RunOne(c, f, 1)
    ensures RunUpTo(c, e, 2) == g
  {
    hide RunOne;
    assert RunUpTo(c, e, 0) == e;
    assert RunUpTo(c, e, 1) == f;
  }

  /** After the first pump: the file of the second download is the first one's, and it goes on with it. */
  ghost predicate FileTaken(e: Engine, a: Record, b: Record) {
    && |e.active| == 1 && e.pending == [] && e.paused == {} && e.cancelled == {}
    && e.active[0].record == b && !e.active[0].finished && !e.active[0].failed && e.active[0].plan == HalfPlan(b)
    && b.id in e.names && e.names[b.id] == b.name && e.files == map[a.name := [ZeroCell(a)]]
    && b.id in e.bases && e.bases[b.id] == Basis(HalfPlan(b), [ZeroCell(a)])
    && AllKept(e.log) && b.id in e.taken
  }

  lemma FirstCommitTakes(a: Record, b: Record, e: Engine)
    requires NamedAsStaged(a, b) && BothRan(e, a, b)
    ensures FileTaken(Closed(e, [Ending(Renamed, true)]), a, b)
    ensures StagedFile(e, a.id) == [ZeroCell(a)] && ReportUpTo(e, [Ending(Renamed, true)], 1).log == e.log + [CompleteNow(e, e.active[0])]
    ensures Closed(e, [Ending(Renamed, true)]).log == e.log + [CompleteNow(e, e.active[0])]
  {
    hide StagedPath, AllKept, Finish, CompleteNow, ZeroCell, OneCell, HalfPlan;
    var endings := [Ending(Renamed, true)];
    var x := e.active[0];
    var noted := NotedComplete(e, x);
    FinishIs(a, b, noted);
    var f := Finish(noted, a.id, Ending(Renamed, true));
    assert ReportUpTo(e, endings, 0) == e;
    assert ReportOne(e, x, Ending(Renamed, true)) == f;
    assert ReportUpTo(e, endings, 1) == f;
    assert ReportUpTo(e, endings, 2) == f;
    CompletionIsQuiet(e, x);
    QuietKept(e.log, noted.log);
    SettledSecond(e.active);
    StagedElsewhere(a.name, a.id);
  }

  lemma CompletionIsQuiet(e: Engine, a: Active)
    ensures !CompleteNow(e, a).Activated?
  {
  }

  lemma SettledSecond(actives: seq<Active>)
    requires |actives| == 2 && actives[0].finished && !actives[1].finished && !actives[1].failed
    ensures Settled({}, actives) == [actives[1]]
  {
    assert actives[..1][..0] == [];
    assert Settled({}, actives[..1]) == [];
  }

  /** The move itself. */
  lemma FinishIs(a: Record, b: Record, e: Engine)
    requires NamedAsStaged(a, b) && |e.active| == 2 && e.active[0].record == a && e.active[1].record == b && e.active[1].plan == HalfPlan(b)
    requires e.names == map[a.id := a.name, b.id := b.name]
    requires e.files == map[StagedPath(a.name, a.id) := [ZeroCell(a)], a.name := [OneCell(b)]]
    requires a.id in e.bases && b.id in e.bases
    ensures var f := Finish(e, a.id, Ending(Renamed, true));
      && f == e.(files := f.files, checkpoints := f.checkpoints, over := f.over, bases := f.bases, taken := f.taken)
      && f.files == map[a.name := [ZeroCell(a)]]
      && b.id in f.bases && f.bases[b.id] == Basis(HalfPlan(b), [ZeroCell(a)]) && b.id in f.taken
  {
    hide StagedPath, HalfPlan, ZeroCell, OneCell, Put;
    StagedElsewhere(a.name, a.id);
    assert HomeOf(e, a.id) == StagedPath(a.name, a.id) && StagedFile(e, a.id) == [ZeroCell(a)];
    var gone := Dropped(e, HomeOf(e, a.id));
    assert gone.files == map[a.name := [OneCell(b)]];
    PutOver(a, b, gone);
  }

  lemma PutOver(a: Record, b: Record, e: Engine)
    requires NamedAsStaged(a, b) && |e.active| == 2 && e.active[0].record == a && e.active[1].record == b && e.active[1].plan == HalfPlan(b)
    requires e.names == map[a.id := a.name, b.id := b.name] && e.files == map[a.name := [OneCell(b)]] && b.id in e.bases
    ensures var f := Put(e, a.name, Some([ZeroCell(a)]));
      && f == e.(files := f.files, over := f.over, bases := f.bases, taken := f.taken)
      && f.files == map[a.name := [ZeroCell(a)]]
      && b.id in f.bases && f.bases[b.id] == Basis(HalfPlan(b), [ZeroCell(a)]) && b.id in f.taken
  {
    hide StagedPath, Off, HalfPlan, ZeroCell, OneCell, Rebased;
    assert HomeOf(e, b.id) == a.name;
    RebasedIs(e, e.active, a.name, [ZeroCell(a)], 1);
    assert e.active[1].record.id in StagedAt(e, e.active, a.name);
  }

  /** The second byte goes into the file taken, and the download is done. */
  ghost predicate DoneOverTaken(e: Engine, a: Record, b: Record) {
    && |e.active| == 1 && e.active[0].record == b && e.active[0].finished && !e.active[0].failed
    && e.active[0].plan.id == b.id && e.active[0].plan.url == b.url && e.active[0].plan.metadata == TWO
    && b.id in e.names && e.names[b.id] == b.name && e.files == map[a.name := [ZeroCell(a), OneCell(b)]]
    && b.id in e.bases && e.bases[b.id] == Basis(HalfPlan(b), [ZeroCell(a)]) && AllKept(e.log)
  }

  lemma SecondRuns(a: Record, b: Record, e: Engine)
    requires NamedAsStaged(a, b) && FileTaken(e, a, b)
    ensures DoneOverTaken(Worked(ZeroAndOnes(a.url), e), a, b)
    ensures e.log <= Worked(ZeroAndOnes(a.url), e).log && forall k | |e.log| <= k < |Worked(ZeroAndOnes(a.url), e).log| :: !Worked(ZeroAndOnes(a.url), e).log[k].Complete?
  {
    hide ZeroAndOnes, StagedPath, RunOne, WithSegment, CheckpointOf, WriteAt, AllKept, RequestOf, OneByte, HalfPlan, ZeroCell, OneCell, AllFinished;
    var c := ZeroAndOnes(a.url);
    HalfIsOpen(b);
    assert ActivateUpTo(c, e, 0) == e;
    assert RunUpTo(c, e, 0) == e;
    assert RunUpTo(c, e, 1) == RunOne(c, e, 0);
    assert FirstUnfinished(e.active[0].plan.segments) == 1;
    RequestsAre(e.active[0], 1);
    Sends(a.url, e.calls, RequestOf(e.active[0], 1));
    OneByteRun(c, e, 0, 1, 1, true);
    var f := RunOne(c, e, 0);
    BothDone(HalfPlan(b));
    WroteSecond(ZeroCell(a), OneCell(b));
    CellIs(b);
    QuietKept(e.log, f.log);
  }

  lemma CellIs(b: Record)
    ensures OneCell(b) == Cell(1, Some(Version(b.url, None, None)))
  {
  }

  lemma WroteSecond(x: Cell, y: Cell)
    ensures WriteAt([x], 1, [y]) == [x, y]
  {
  }

  /** What is reported of it. */
  lemma TakenIsWrong(a: Record, b: Record, e: Engine, endings: seq<Ending>)
    requires NamedAsStaged(a, b) && DoneOverTaken(e, a, b)
    ensures var log, k := Closed(e, endings).log, |e.log|;
      && log == e.log + [CompleteNow(e, e.active[0])]
      && k < |log| && log[k].Complete? && log[k].plan.id == b.id && |log[k].staged| == log[k].plan.metadata.total
      && Contents(log[k].staged) == [0, 1] && !BegunRight(log, k) && !ReportedRight(ZeroOrOnes(a.url), log[k])
      && AllKept(log)
  {
    hide StagedPath, Closed, BegunRight, AllKept, Source;
    Reported(e, endings);
    var log, k := Closed(e, endings).log, |e.log|;
    HalfIsOpen(b);
    OtherFileIsWrong(log, k, 0);
    QuietKept(e.log, log);
    OnesBehind(a, b, log[k].plan);
    assert [0, 1][..2] == [0, 1] && [0, 1][0] != [1, 1][0];
  }

  lemma OnesBehind(a: Record, b: Record, p: Plan)
    requires a.url != b.url && p.url == b.url
    ensures Source(ZeroOrOnes(a.url), p) == [1, 1]
  {
  }

  lemma FourCalls(c: Client, a: Record, b: Record, first: seq<Ending>, second: seq<Ending>)
    ensures Run(c, [Enqueue(a), Enqueue(b), Pump(first), Pump(second)]) == AfterPump(c, AfterPump(c, Run(c, [Enqueue(a), Enqueue(b)]), first), second)
  {
    hide AfterPump;
    var two: seq<Call> := [Enqueue(a), Enqueue(b)];
    assert two + [Pump(first)] == [Enqueue(a), Enqueue(b), Pump(first)];
    assert (two + [Call.Pump(first)])[..2] == two;
    assert two + [Pump(first), Pump(second)] == [Enqueue(a), Enqueue(b), Pump(first), Pump(second)];
    assert (two + [Call.Pump(first), Call.Pump(second)])[..3] == two + [Pump(first)];
  }

  /** The two pumps. */
  lemma TwoPumps(a: Record, b: Record)
    requires NamedAsStaged(a, b)
    ensures var c := ZeroAndOnes(a.url);
      var e := Run(c, [Enqueue(a), Enqueue(b)]);
      var f := AfterPump(c, e, [Ending(Renamed, true)]);
      BothRan(Worked(c, e), a, b) && FileTaken(f, a, b) && DoneOverTaken(Worked(c, f), a, b)
  {
    hide ZeroAndOnes, ActivateUpTo, RunUpTo, Closed, BothStarted, BothRan, FileTaken, DoneOverTaken, StagedPath;
    var c := ZeroAndOnes(a.url);
    var e := Run(c, [Enqueue(a), Enqueue(b)]);
    BothQueued(c, a, b);
    BothStart(a, b, e);
    TwoActive(ActivateUpTo(c, e, 2), a, b);
    BothRun(a, b, ActivateUpTo(c, e, 2));
    FirstCommitTakes(a, b, Worked(c, e));
    SecondRuns(a, b, AfterPump(c, e, [Ending(Renamed, true)]));
  }

  lemma TwoActive(e: Engine, a: Record, b: Record)
    requires BothStarted(e, a, b)
    ensures |e.active| == 2
  {
  }

  /** So over an honest server, nothing interrupted, and every activation over a file of its own that it found empty: the
      first download is committed onto the path at which the second is staged; the second goes on in the first one's
      file, and is reported complete with the planned length and the wrong bytes. */
  lemma CommitCompletesWrong(a: Record, b: Record, endings: seq<Ending>)
    requires NamedAsStaged(a, b)
    ensures HonestClient(ZeroAndOnes(a.url), ZeroOrOnes(a.url))
    ensures var log := Run(ZeroAndOnes(a.url), [Enqueue(a), Enqueue(b), Pump([Ending(Renamed, true)]), Pump(endings)]).log;
      && AllKept(log)
      && exists k | 0 <= k < |log| ::
           log[k].Complete? && log[k].plan.id == b.id && |log[k].staged| == log[k].plan.metadata.total
           && Contents(log[k].staged) == [0, 1] && !BegunRight(log, k) && !ReportedRight(ZeroOrOnes(a.url), log[k])
  {
    hide ZeroAndOnes, Worked, Closed, BothRan, FileTaken, HonestClient, BegunRight, ReportedRight, AllKept, StagedPath, Run, DoneOverTaken;
    ZeroAndOnesIsHonest(a.url);
    var c := ZeroAndOnes(a.url);
    TwoPumps(a, b);
    var f := AfterPump(c, Run(c, [Enqueue(a), Enqueue(b)]), [Ending(Renamed, true)]);
    FourCalls(c, a, b, [Ending(Renamed, true)], endings);
    OneLeft(Worked(c, f), a, b);
    TakenIsWrong(a, b, Worked(c, f), endings);
    var log := Closed(Worked(c, f), endings).log;
    assert log == AfterPump(c, f, endings).log;
    assert log[|Worked(c, f).log|].Complete?;
  }

  lemma OneLeft(e: Engine, a: Record, b: Record)
    requires DoneOverTaken(e, a, b)
    ensures |e.active| == 1
  {
  }
}
