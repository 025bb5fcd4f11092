/** A server that ignores ranges, over a connection that breaks: why the theorems about completions ask for a client that
    delivers bytes of the range that was requested. */
module RangesIgnored {
  import opened Bytes
  import opened Wrappers
  import opened DownloadPlan
  import opened DownloadCheckpoint
  import opened StagedPaths
  import opened HttpTransport
  import opened TransferScheduler
  import opened SchedulerInvariants
  import opened SchedulerTheorems
  import opened Provenance
  import opened EndToEnd
  import opened StaleFiles

  /** Two different bytes behind every URL; every reply begins with the first, whatever was asked for, and is cut off
      after it. */
  function AlwaysFromStart(): Client {
    Client((n: nat, url: Text, referrer: Text) => Some(Head(Some(2), true, None, None)), (n: nat, r: TransportRequest) => OneByte(0, false))
  }

  function ZeroThenOne(): Origin {
    v => [0, 1]
  }

  lemma Tells(n: nat, r: Record)
    ensures Inspected(AlwaysFromStart().inspect(n, r.url, r.referrer)) == Some(TWO)
  {
  }

  lemma Replies(n: nat, r: TransportRequest)
    ensures AlwaysFromStart().stream(n, r) == OneByte(0, false)
  {
  }

  function ZeroFrom(b: Record): Cell {
    Cell(0, Some(Version(b.url, None, None)))
  }

  /** Half done, as far as anyone can tell. */
  ghost predicate HalfFetched(e: Engine, b: Record) {
    && |e.active| == 1 && e.pending == [] && e.paused == {} && e.cancelled == {}
    && e.active[0].record == b && !e.active[0].finished && !e.active[0].failed
    && e.active[0].plan == Plan(b.id, b.url, b.referrer, TWO, [LOW.(done := 1, finished := true), HIGH], e.active[0].plan.done)
    && b.id in e.names && e.names[b.id] == b.name && e.files == map[StagedPath(b.name, b.id) := [ZeroFrom(b)]]
    && b.id in e.bases && e.bases[b.id] == Basis(Plan(b.id, b.url, b.referrer, TWO, [LOW, HIGH], 0), [])
  }

  lemma FirstFetch(b: Record)
    requires b.id != [] && b.url != [] && b.segmentLimit == 16
    ensures HalfFetched(Worked(AlwaysFromStart(), Step(AlwaysFromStart(), Empty(), Enqueue(b))), b)
  {
    hide AlwaysFromStart, WriteAt, RunOne, Kept, WithSegment, RestoredPlan, NewPlan, Closed, Inspected, AllFinished, AfterPump, StagedPath, RequestOf, OneByte, Worked;
    var c := AlwaysFromStart();
    var queued := Step(c, Empty(), Enqueue(b));
    assert queued.files == map[StagedPath(b.name, b.id) := []];
    Tells(queued.calls, b);
    PumpOfOne(c, queued, [], b, TWO);
    var asked := queued.(pending := [], calls := queued.calls + 1, log := queued.log + [Described(b, Some(TWO))]);
    StartedAlone(asked, b, TWO);
    NothingRestored(b);
    var started := Started(asked, b, TWO);
    assert StagedFile(asked, b.id) == [];
    var x := started.active[0];
    assert FirstUnfinished(x.plan.segments) == 0;
    Replies(started.calls, RequestOf(x, 0));
    OneByteRun(c, started, 0, 0, 0, false);
    HalfIs(b);
    Wrote(b);
    WorkOfOne(c, queued, started);
  }

  lemma HalfIs(b: Record)
    ensures var p := WithSegment(Plan(b.id, b.url, b.referrer, TWO, [LOW, HIGH], 0), 0, LOW.(done := 1, finished := true));
      && p == Plan(b.id, b.url, b.referrer, TWO, [LOW.(done := 1, finished := true), HIGH], p.done) && !AllFinished(p.segments)
  {
    var p := WithSegment(Plan(b.id, b.url, b.referrer, TWO, [LOW, HIGH], 0), 0, LOW.(done := 1, finished := true));
    assert p.segments == [LOW.(done := 1, finished := true), HIGH];
    assert HIGH in p.segments;
  }

  lemma Wrote(b: Record)
    ensures WriteAt([], 0, [ZeroFrom(b)]) == [ZeroFrom(b)] && WriteAt([ZeroFrom(b)], 1, [ZeroFrom(b)]) == [ZeroFrom(b), ZeroFrom(b)]
  {
  }

  /** The second byte asked for is answered with the first again, and the download is done. */
  lemma SecondFetch(e: Engine, b: Record)
    requires b.id != [] && HalfFetched(e, b)
    ensures var ran := Worked(AlwaysFromStart(), e);
      && |ran.active| == 1 && ran.active[0].finished && !ran.active[0].failed && ran.active[0].record == b
      && ran.active[0].plan.id == b.id && ran.active[0].plan.url == b.url && ran.active[0].plan.metadata == TWO
      && StagedFile(ran, b.id) == [ZeroFrom(b), ZeroFrom(b)]
      && BasisOf(ran, ran.active[0]) == Basis(Plan(b.id, b.url, b.referrer, TWO, [LOW, HIGH], 0), [])
  {
    hide AlwaysFromStart, StagedPath, RunOne, WithSegment, CheckpointOf, WriteAt, RequestOf, OneByte, AllFinished, ZeroFrom;
    var c := AlwaysFromStart();
    assert ActivateUpTo(c, e, 0) == e;
    assert RunUpTo(c, e, 0) == e;
    assert RunUpTo(c, e, 1) == RunOne(c, e, 0);
    var p := e.active[0].plan;
    assert FirstUnfinished(p.segments) == 1;
    Replies(e.calls, RequestOf(e.active[0], 1));
    OneByteRun(c, e, 0, 1, 0, false);
    BothDone(p);
    Wrote(b);
    CellIs(b);
  }

  lemma CellIs(b: Record)
    ensures ZeroFrom(b) == Cell(0, Some(Version(b.url, None, None)))
  {
  }

  lemma ReportedTwice(ran: Engine, b: Record, endings: seq<Ending>)
    requires |ran.active| == 1 && ran.active[0].finished && !ran.active[0].failed && ran.active[0].record == b
    requires ran.active[0].plan.id == b.id && ran.active[0].plan.url == b.url && ran.active[0].plan.metadata == TWO
    requires StagedFile(ran, b.id) == [ZeroFrom(b), ZeroFrom(b)]
    requires BasisOf(ran, ran.active[0]) == Basis(Plan(b.id, b.url, b.referrer, TWO, [LOW, HIGH], 0), [])
    ensures var log, k := Closed(ran, endings).log, |ran.log|;
      && k < |log| && log[k].Complete? && log[k].plan.id == b.id && |log[k].staged| == log[k].plan.metadata.total
      && Contents(log[k].staged) == [0, 0] && BegunRight(log, k) && !ReportedRight(ZeroThenOne(), log[k])
  {
    hide Closed, StagedPath, BasisOf, StagedFile, Source;
    Reported(ran, endings);
    var log, k := Closed(ran, endings).log, |ran.log|;
    Behind(log[k].plan);
    assert Contents([ZeroFrom(b), ZeroFrom(b)]) == [0, 0];
    assert [0, 0][..2] == [0, 0] && [0, 0][1] != [0, 1][1];
  }

  lemma Behind(p: Plan)
    ensures Source(ZeroThenOne(), p) == [0, 1]
  {
  }

  /** So without a client that keeps to ranges: the transport credits the bytes of a reply that failed, and a download
      begun from nothing is reported complete with the planned length and the wrong bytes. */
  lemma CutRepliesCompleteWrong(b: Record, endings: seq<Ending>)
    requires b.id != [] && b.url != [] && b.segmentLimit == 16
    ensures var log := Run(AlwaysFromStart(), [Enqueue(b), Pump([]), Pump(endings)]).log;
      exists k | 0 <= k < |log| ::
        log[k].Complete? && log[k].plan.id == b.id && |log[k].staged| == log[k].plan.metadata.total
        && Contents(log[k].staged) == [0, 0] && BegunRight(log, k) && !ReportedRight(ZeroThenOne(), log[k])
  {
    hide AlwaysFromStart, Worked, Closed, BegunRight, ReportedRight, StagedPath, Run, ZeroFrom, BasisOf, StagedFile;
    var c := AlwaysFromStart();
    var e := Step(c, Empty(), Enqueue(b));
    FirstFetch(b);
    HalfStays(Worked(c, e), b);
    var f := AfterPump(c, e, []);
    SecondFetch(f, b);
    ReportedTwice(Worked(c, f), b, endings);
    ThreeCalls(c, b, endings);
    assert Run(c, [Enqueue(b), Pump([]), Pump(endings)]).log == Closed(Worked(c, f), endings).log;
    assert Closed(Worked(c, f), endings).log[|Worked(c, f).log|].Complete?;
  }

  lemma HalfStays(e: Engine, b: Record)
    requires HalfFetched(e, b)
    ensures HalfFetched(Closed(e, []), b)
  {
    hide StagedPath;
    Unreported(e, []);
    assert e.active[..0] == [];
    assert Settled({}, e.active) == e.active;
  }

  lemma ThreeCalls(c: Client, b: Record, endings: seq<Ending>)
    ensures Run(c, [Enqueue(b), Pump([]), Pump(endings)]) == AfterPump(c, AfterPump(c, Step(c, Empty(), Enqueue(b)), []), endings)
  {
    hide AfterPump;
    var one: seq<Call> := [Enqueue(b)];
    var two: seq<Call> := [Enqueue(b), Pump([])];
    assert two[..1] == one && one[..0] == [];
    assert [Enqueue(b), Pump([]), Pump(endings)][..2] == two;
    assert Run(c, one) == Step(c, Empty(), Enqueue(b));
    PumpIsStep(c, Run(c, one), []);
  }
}
