/** The run in which a download is released with another one's bytes: the first is committed onto the path at which the
    second is staged, and loses its own file again when the second is committed. */
module TakenRelease {
  import opened Bytes
  import opened Wrappers
  import opened DownloadPlan
  import opened StagedPaths
  import opened HttpTransport
  import opened TransferScheduler
  import opened SchedulerInvariants
  import opened SchedulerTheorems
  import opened PumpEvents
  import opened Provenance
  import opened KeptFiles
  import opened EndToEnd
  import opened StaleFiles
  import opened TakenFiles
  import opened DownloadQueue
  import opened Wardveil
  import opened DownloadRuntime
  import opened ReleaseGate
  import opened RuntimeRuns
  import opened ReleasedResource
  import opened StaleRelease

  /** Two requests for different URLs, the first under the name at which the second is staged. */
  predicate NameCollides(a: Item, b: Item) {
    && Numbered(a.id) && Numbered(b.id) && a.id != [] && b.id != [] && a.id != b.id
    && a.request.url != [] && b.request.url != [] && a.request.url != b.request.url
    && a.request.scheduledStart == None && b.request.scheduledStart == None
    && a.state == Queued && b.state == Queued && a.segmentLimit == 16 && b.segmentLimit == 16
    && FileName(a.request) == StagedPath(FileName(b.request), b.id)
  }

  lemma RecordsCollide(a: Item, b: Item)
    requires NameCollides(a, b)
    ensures NamedAsStaged(RecordOf(a), RecordOf(b))
  {
    hide FileName, StagedPath, Numbered;
  }

  /** Both begun. */
  lemma BothBegun(c: Client, a: Item, b: Item)
    requires NameCollides(a, b)
    ensures var r := RuntimeRun(c, AllClean(), [Begin(a, true, 0), Begin(b, true, 0)]);
      && r.engine == Run(c, [Enqueue(RecordOf(a)), Enqueue(RecordOf(b))]) && r.items == [a, b] && r.waiting == {} && r.releases == []
  {
    hide FileName, StagedPath, Numbered, RuntimeStep, Step, AllClean, CanQueue;
    var x, y := RecordOf(a), RecordOf(b);
    NothingQueued(FirstRuntime(), a);
    OneBegun(c, AllClean(), FirstRuntime(), a);
    var r := RuntimeStep(c, AllClean(), FirstRuntime(), Begin(a, true, 0));
    assert [Enqueue(x), Enqueue(y)][..1] == [Enqueue(x)] && [Enqueue(x)][..0] == [];
    assert Run(c, [Enqueue(x)]) == Step(c, SchedulerInvariants.Empty(), Enqueue(x));
    FirstQueued(c, a, b);
    OneBegun(c, AllClean(), r, b);
    OneMoreCall(c, [], Begin(a, true, 0));
    OneMoreCall(c, [Begin(a, true, 0)], Begin(b, true, 0));
    assert [] + [Begin(a, true, 0)] == [Begin(a, true, 0)];
    assert [Begin(a, true, 0)] + [Begin(b, true, 0)] == [Begin(a, true, 0), Begin(b, true, 0)];
  }

  lemma FirstQueued(c: Client, a: Item, b: Item)
    requires NameCollides(a, b)
    ensures CanQueue(Step(c, SchedulerInvariants.Empty(), Enqueue(RecordOf(a))), RecordOf(b)) && !HasItem([a], b.id)
  {
    hide FileName, StagedPath, Numbered;
  }

  lemma TwoItems(items: seq<Item>, a: Item, b: Item)
    requires OnlyStates([a, b], items) && a.id != b.id
    ensures HasItem(items, a.id) && HasItem(items, b.id)
  {
    SameIds([a, b], items, a.id);
    SameIds([a, b], items, b.id);
  }

  lemma TwoReports(scanner: Scanner, r: Runtime, actives: seq<Active>)
    requires |actives| == 2 && !actives[1].finished && !actives[1].failed
    ensures CalledBack(scanner, r, actives) == ReportedBack(scanner, r, actives[0])
  {
    hide ReportedBack;
    assert actives[..1][..0] == [] && actives[..1][0] == actives[0];
    assert CalledBack(scanner, r, []) == r;
    assert CalledBack(scanner, r, actives[..1]) == ReportedBack(scanner, r, actives[0]);
    QuietOne(scanner, CalledBack(scanner, r, actives[..1]), actives[1]);
  }

  lemma QuietOne(scanner: Scanner, r: Runtime, a: Active)
    requires !a.finished && !a.failed
    ensures ReportedBack(scanner, r, a) == r
  {
    hide Verified, Marked;
  }

  lemma TwoEndings(e: Engine, ending: Ending)
    requires |e.active| == 2 && !e.active[1].finished && !e.active[1].failed
    ensures Closed(e, [ending]) == Swept(ReportOne(e, e.active[0], ending))
  {
    hide Finish, Settled, NotedComplete, FailedId;
    assert ReportUpTo(e, [ending], 0) == e;
    assert ReportUpTo(e, [ending], 1) == ReportOne(e, e.active[0], ending);
    assert ReportUpTo(e, [ending], 2) == ReportUpTo(e, [ending], 1);
  }

  /** The first pump: the first download is released, and its file lies where the second is staged. */
  lemma FirstPumpReleases(r: Runtime, a: Item, b: Item)
    requires NameCollides(a, b) && Gated(r) && r.items == [a, b] && r.waiting == {} && r.releases == []
    requires BothRan(Worked(ZeroAndOnes(a.request.url), r.engine), RecordOf(a), RecordOf(b))
    ensures var c := ZeroAndOnes(a.request.url);
      var s := RuntimeStep(c, AllClean(), r, PumpDownloads(0));
      && s.engine == AfterPump(c, r.engine, [Ending(Renamed, true)]) && OnlyStates([a, b], s.items) && s.waiting == {}
      && |s.releases| == 1 && s.releases[0].plan.id == a.id && s.releases[0].path == FileName(a.request) && s.releases[0].bytes == [0]
  {
    hide Worked, AllClean, FileName, ReportedBack, RuntimeStep, CalledBack, AfterWork, OnlyStates, Numbered, StagedPath, Swept, WithState, Gated, ReportOne, HasItem;
    var c := ZeroAndOnes(a.request.url);
    PumpIs(c, AllClean(), r);
    var worked := AfterWork(c, ReleasedDue(r, 0));
    var actives := worked.engine.active;
    BothRanLooks(worked.engine, RecordOf(a), RecordOf(b));
    TwoItems(worked.items, a, b);
    TwoReports(AllClean(), worked, actives);
    CleanIsReleased(worked, actives[0]);
    TwoEndings(worked.engine, Ending(Renamed, true));
    DistinctKept(worked.items, a.id, Verifying);
    DistinctKept(WithState(worked.items, a.id, Verifying), a.id, Completed);
    OnlyStatesChain([a, b], worked.items, WithState(worked.items, a.id, Verifying));
    OnlyStatesChain([a, b], WithState(worked.items, a.id, Verifying), WithState(WithState(worked.items, a.id, Verifying), a.id, Completed));
    ReportedWaits(AllClean(), worked, actives[0]);
  }

  lemma ReportedWaits(scanner: Scanner, r: Runtime, a: Active)
    ensures r.waiting == {} ==> ReportedBack(scanner, r, a).waiting == {}
  {
    hide VerdictOf, WithState, Finish, CompleteNow;
  }

  lemma BothRanLooks(e: Engine, a: Record, b: Record)
    requires BothRan(e, a, b) && a.id != b.id
    ensures |e.active| == 2 && e.active[0].finished && !e.active[0].failed && !e.active[1].finished && !e.active[1].failed
    ensures e.active[0].plan.id == e.active[0].record.id == a.id && e.active[0].plan.metadata.total == 1
    ensures a.id in e.names && NameOf(e, a.id) == a.name && HomeOf(e, a.id) in e.files
    ensures |StagedFile(e, a.id)| == 1 && Contents(StagedFile(e, a.id)) == [0]
  {
    hide StagedPath, HalfPlan;
    StagedElsewhere(a.name, a.id);
    assert StagedFile(e, a.id) == [ZeroCell(a)];
    assert Contents([ZeroCell(a)]) == [0];
  }

  lemma DoneLooks(e: Engine, a: Record, b: Record)
    requires NamedAsStaged(a, b) && DoneOverTaken(e, a, b)
    ensures |e.active| == 1 && e.active[0].finished && !e.active[0].failed
    ensures e.active[0].plan.id == e.active[0].record.id == b.id && e.active[0].plan.metadata.total == 2
    ensures b.id in e.names && HomeOf(e, b.id) in e.files && |StagedFile(e, b.id)| == 2 && Contents(StagedFile(e, b.id)) == [0, 1]
    ensures var f := ReportOne(e, e.active[0], Ending(Renamed, true)); a.name !in f.files && b.name in f.files && Contents(f.files[b.name]) == [0, 1]
  {
    hide StagedPath, HalfPlan, CompleteNow, Rebased, StagedAt, Off;
    StagedElsewhere(b.name, b.id);
    assert HomeOf(e, b.id) == a.name;
    assert StagedFile(e, b.id) == [ZeroCell(a), OneCell(b)];
    assert Contents([ZeroCell(a), OneCell(b)]) == [0, 1];
  }

  /** The second pump: the second download is released with the first one's byte at its front, and the first one's file is
      gone from its final path. */
  lemma SecondPumpReleases(r: Runtime, a: Item, b: Item)
    requires NameCollides(a, b) && Gated(r) && OnlyStates([a, b], r.items) && r.waiting == {} && |r.releases| == 1
    requires DoneOverTaken(Worked(ZeroAndOnes(a.request.url), r.engine), RecordOf(a), RecordOf(b))
    ensures var s := RuntimeStep(ZeroAndOnes(a.request.url), AllClean(), r, PumpDownloads(0));
      && |s.releases| == 2 && r.releases <= s.releases && s.releases[1].plan.id == b.id && s.releases[1].bytes == [0, 1]
      && FileName(a.request) !in s.engine.files
      && FileName(b.request) in s.engine.files && Contents(s.engine.files[FileName(b.request)]) == [0, 1]
  {
    hide Worked, AllClean, FileName, ReportedBack, RuntimeStep, CalledBack, AfterWork, OnlyStates, Numbered, StagedPath, Settled, WithState, Gated, ReportOne, HasItem, DoneOverTaken;
    var c := ZeroAndOnes(a.request.url);
    RecordsCollide(a, b);
    PumpIs(c, AllClean(), r);
    var worked := AfterWork(c, ReleasedDue(r, 0));
    OnlyStatesChain([a, b], r.items, worked.items);
    DoneLooks(worked.engine, RecordOf(a), RecordOf(b));
    TwoItems(worked.items, a, b);
    OneCalledBack(AllClean(), worked, worked.engine.active);
    CleanIsReleased(worked, worked.engine.active[0]);
  }

  /** So with an honest client, every finding clean and current, nothing interrupted and every activation over its own
      file: the second download is released with the first one's bytes where its own differ, and the file released first
      is gone. */
  lemma CollidingIsReleasedWrong(a: Item, b: Item)
    requires NameCollides(a, b)
    ensures HonestClient(ZeroAndOnes(a.request.url), ZeroOrOnes(a.request.url))
    ensures var r := RuntimeRun(ZeroAndOnes(a.request.url), AllClean(), [Begin(a, true, 0), Begin(b, true, 0), PumpDownloads(0), PumpDownloads(0)]);
      && |r.releases| == 2 && r.releases[0].plan.id == a.id && r.releases[0].bytes == [0]
      && r.releases[1].plan.id == b.id && r.releases[1].bytes == [0, 1]
      && FileName(a.request) !in r.engine.files && AllKept(r.engine.log) && b.id in r.engine.taken
    ensures forall v: Version | v.url == b.request.url :: ZeroOrOnes(a.request.url)(v) == [1, 1]
  {
    hide RuntimeStep, AllClean, ZeroAndOnes, HonestClient, FileName, AfterPump, Step, Gated, RuntimeRun, Numbered, StagedPath, BothRan, DoneOverTaken, FileTaken, Worked, OnlyStates, AllKept, Run;
    var c := ZeroAndOnes(a.request.url);
    ZeroAndOnesIsHonest(a.request.url);
    RecordsCollide(a, b);
    var two := [Begin(a, true, 0), Begin(b, true, 0)];
    BothBegun(c, a, b);
    TwoPumps(RecordOf(a), RecordOf(b));
    RunIsGated(c, AllClean(), two);
    var r := RuntimeRun(c, AllClean(), two);
    FirstPumpReleases(r, a, b);
    OneMoreCall(c, two, PumpDownloads(0));
    RunIsGated(c, AllClean(), two + [PumpDownloads(0)]);
    var s := RuntimeRun(c, AllClean(), two + [PumpDownloads(0)]);
    SecondPumpReleases(s, a, b);
    OneMoreCall(c, two + [PumpDownloads(0)], PumpDownloads(0));
    assert two + [PumpDownloads(0)] + [PumpDownloads(0)] == [Begin(a, true, 0), Begin(b, true, 0), PumpDownloads(0), PumpDownloads(0)];
    StillTaken(c, s, a, b);
  }

  /** The last pump activates nothing, and what was taken stays noted. */
  lemma StillTaken(c: Client, r: Runtime, a: Item, b: Item)
    requires c == ZeroAndOnes(a.request.url) && NameCollides(a, b) && Gated(r) && r.waiting == {} && FileTaken(r.engine, RecordOf(a), RecordOf(b))
    ensures var s := RuntimeStep(c, AllClean(), r, PumpDownloads(0)); AllKept(s.engine.log) && b.id in s.engine.taken
  {
    hide RuntimeStep, AllClean, ZeroAndOnes, FileName, Gated, Numbered, StagedPath, DoneOverTaken, FileTaken, AllKept, Closed, Worked, AfterRuntimePump;
    RecordsCollide(a, b);
    PumpedIs(c, AllClean(), r);
    var endings := PumpEngine(c, AllClean(), r, 0);
    SecondRuns(RecordOf(a), RecordOf(b), r.engine);
    OneLeft(Worked(c, r.engine), RecordOf(a), RecordOf(b));
    TakenIsWrong(RecordOf(a), RecordOf(b), Worked(c, r.engine), endings);
    PumpGrows(c, r.engine, endings);
    WasTaken(r.engine, RecordOf(a), RecordOf(b));
  }

  lemma WasTaken(e: Engine, a: Record, b: Record)
    requires FileTaken(e, a, b)
    ensures b.id in e.taken
  {
  }
}
