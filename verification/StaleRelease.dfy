/** The run in which a download is released over a file with bytes that were never fetched: a private download is half
    done when the program ends, and its id comes up again for the same URL under another name. */
module StaleRelease {
  import opened Bytes
  import opened Wrappers
  import opened DownloadPlan
  import opened StagedPaths
  import opened HttpTransport
  import opened TransferScheduler
  import opened SchedulerInvariants
  import opened SchedulerTheorems
  import opened PumpEvents
  import opened Provenance
  import opened EndToEnd
  import opened StaleFiles
  import opened DownloadQueue
  import opened Wardveil
  import opened DownloadRuntime
  import opened ReleaseGate
  import opened RuntimeRuns
  import opened ReleasedResource

  /** A scanner that finds every file clean. */
  function AllClean(): Scanner {
    (n: nat, id: Text, staged: seq<byte>) =>
      Inspection(true, ScanResponse(true, Some(CleanFinding(id, DigestOf(staged)))), 5, Some(staged), Renamed)
  }

  function CleanFinding(id: Text, digest: Text): ScanRecord {
    ScanRecord(ContractVersion(), FindingType(), true, Ascii("scanner"), DownloadType(), ResourceId(id), digest, Clean, 1, 10, [Ascii("scan")])
  }

  lemma CleanIsAllowed(request: ScanRequest, id: Text, digest: Text)
    requires request.resourceId == ResourceId(id) && request.digest == digest
    ensures var d := Evaluate(request, ScanResponse(true, Some(CleanFinding(id, digest))), 5);
      d.canRelease && d.disposition != HoldReview
  {
    hide ResourceId;
  }

  /** A finished download that has a record, a file of the planned length and a clean finding is released, and its file
      moved to its final path. */
  lemma CleanIsReleased(r: Runtime, a: Active)
    requires a.finished && !a.failed && a.plan.id == a.record.id && HasItem(r.items, a.plan.id)
    requires a.plan.id in r.engine.names && HomeOf(r.engine, a.plan.id) in r.engine.files && |StagedFile(r.engine, a.plan.id)| == a.plan.metadata.total
    ensures var s := ReportedBack(AllClean(), r, a);
      && |s.releases| == |r.releases| + 1 && r.releases <= s.releases && s.releases[|r.releases|].plan == a.plan
      && s.releases[|r.releases|].bytes == Contents(StagedFile(r.engine, a.plan.id))
      && s.releases[|r.releases|].path == NameOf(r.engine, a.plan.id)
      && s.engine == ReportOne(r.engine, a, Ending(Renamed, true)) && s.items == WithState(WithState(r.items, a.plan.id, Verifying), a.plan.id, Completed)
  {
    hide WithState, FindItem, VerdictOf, Finish, CompleteNow, HomeOf, StagedFile, AllClean;
    var noted := r.(engine := NotedComplete(r.engine, a));
    FindKept(r.items, a.plan.id, Verifying);
    NotedLooks(r.engine, a);
    CleanVerdict(Verifies(noted, a.plan.id), a.plan, a.since);
  }

  lemma NotedLooks(e: Engine, a: Active)
    ensures var f := NotedComplete(e, a);
      f.names == e.names && f.files == e.files && forall id :: StagedFile(f, id) == StagedFile(e, id) && HomeOf(f, id) == HomeOf(e, id) && NameOf(f, id) == NameOf(e, id)
  {
    hide CompleteNow, StagedPath;
  }

  lemma CleanVerdict(r: Runtime, p: Plan, since: nat)
    requires HasItem(r.items, p.id) && HomeOf(r.engine, p.id) in r.engine.files && |StagedFile(r.engine, p.id)| == p.metadata.total
    ensures var v := VerdictOf(AllClean(), r, p, since);
      && v.state == Completed && v.ending == Ending(Renamed, true) && v.release.Some? && v.decision.Some?
      && v.release.value.plan == p && v.release.value.bytes == Contents(StagedFile(r.engine, p.id)) && v.release.value.path == NameOf(r.engine, p.id)
  {
    hide Evaluate, DigestOf, ResourceId, FindItem, StagedFile, Contents, CleanFinding, HomeOf, HasItem;
    var staged := Contents(StagedFile(r.engine, p.id));
    SameLength(StagedFile(r.engine, p.id));
    CleanIsAllowed(ScanRequestOf(r, p.id, staged), p.id, DigestOf(staged));
  }

  /** The two requests: one URL, two names, the first in a private session. */
  predicate SameUrlOtherName(a: Item, b: Item) {
    && a.id != [] && b.id == a.id && a.request.url != [] && b.request.url == a.request.url && b.request.referrer == a.request.referrer
    && a.request.privateSession && a.request.scheduledStart == None && b.request.scheduledStart == None
    && a.state == Queued && b.state == Queued && a.segmentLimit == 16 && b.segmentLimit == 16
    && FileName(a.request) != FileName(b.request) && Numbered(a.id)
  }

  lemma OneBegun(c: Client, scanner: Scanner, r: Runtime, item: Item)
    requires !HasItem(r.items, item.id) && CanQueue(r.engine, RecordOf(item))
    requires item.id != [] && item.request.url != [] && item.state == Queued && item.request.scheduledStart == None && Numbered(item.id) && item.segmentLimit == 16
    ensures var s := RuntimeStep(c, scanner, r, Begin(item, true, 0));
      && s.engine == Step(c, r.engine, Enqueue(RecordOf(item))) && s.items == r.items + [item] && s.waiting == r.waiting && s.releases == r.releases
  {
    hide FileName, StagedPath, Numbered;
    SameCanQueue(r.engine, item.id, RecordOf(item).name, RecordOf(item));
  }

  lemma NothingQueued(r: Runtime, item: Item)
    requires r.items == [] && r.engine.pending == [] && r.engine.active == [] && item.id != [] && item.request.url != []
    ensures !HasItem(r.items, item.id) && CanQueue(r.engine, RecordOf(item))
  {
    hide FileName;
  }

  /** A pump with nothing waiting for its time. */
  lemma PumpIs(c: Client, scanner: Scanner, r: Runtime)
    requires r.waiting == {} && Gated(r)
    ensures var s := RuntimeStep(c, scanner, r, PumpDownloads(0));
      var worked := AfterWork(c, ReleasedDue(r, 0));
      && worked.engine == Worked(c, r.engine) && OnlyStates(r.items, worked.items) && worked.releases == r.releases && worked.waiting == {}
      && s == CalledBack(scanner, worked, worked.engine.active).(engine := Swept(CalledBack(scanner, worked, worked.engine.active).engine))
  {
    hide CalledBack, HandledAll, Told, Worked, Gated, Swept, Sound, OnlyStates, Orderly, StateOf, Listed;
    assert Due(r, 0) == {};
    NobodyLetGo(r);
    var released := ReleasedDue(r, 0);
    assert released.engine == r.engine && released.items == r.items && released.releases == r.releases && released.waiting == {};
    LetGo(r, 0);
    WorkEffect(c, released, []);
    WaitingStays(released.(engine := Worked(c, released.engine)), Told(released.engine, Worked(c, released.engine)));
  }

  lemma {:induction false} WaitingStays(r: Runtime, events: seq<Event>)
    requires r.waiting == {}
    ensures HandledAll(r, events).waiting == {}
  {
    hide WithState;
    if events != [] {
      WaitingStays(r, events[..|events| - 1]);
    }
  }

  lemma QuietReport(scanner: Scanner, r: Runtime, actives: seq<Active>)
    requires |actives| == 1 && !actives[0].finished && !actives[0].failed
    ensures CalledBack(scanner, r, actives) == r
  {
    assert actives[..0] == [];
    assert CalledBack(scanner, r, []) == r;
  }

  lemma OneCalledBack(scanner: Scanner, r: Runtime, actives: seq<Active>)
    requires |actives| == 1
    ensures CalledBack(scanner, r, actives) == ReportedBack(scanner, r, actives[0])
  {
    hide ReportedBack;
    assert actives[..0] == [];
    assert CalledBack(scanner, r, []) == r;
  }

  /** The first session: half done, and nothing of it left in the queue when the program opens again. */
  lemma FirstSessionEnds(a: Item, b: Item) returns (endings: seq<Ending>)
    requires SameUrlOtherName(a, b)
    ensures var r := RuntimeRun(TwoOnes(), AllClean(), [Begin(a, true, 0), PumpDownloads(0), Reopen(Between, 0, id => true, 0)]);
      var e := AfterPump(TwoOnes(), Step(TwoOnes(), SchedulerInvariants.Empty(), Enqueue(RecordOf(a))), endings);
      r.engine == Ended(e) && r.items == [] && r.waiting == {} && r.releases == []
  {
    hide AfterPump, Step, TwoOnes, AllClean, FileName, Ended, RuntimeRun, RuntimeStep, Worked, CalledBack, AfterWork, Gated, OnlyStates, Numbered, StagedPath, Swept;
    var c := TwoOnes();
    var begun := RuntimeStep(c, AllClean(), FirstRuntime(), Begin(a, true, 0));
    NothingQueued(FirstRuntime(), a);
    OneBegun(c, AllClean(), FirstRuntime(), a);
    FirstIsGated();
    StepGates(c, AllClean(), FirstRuntime(), Begin(a, true, 0));
    FirstSession(RecordOf(a), []);
    PumpIs(c, AllClean(), begun);
    var worked := AfterWork(c, ReleasedDue(begun, 0));
    QuietReport(AllClean(), worked, worked.engine.active);
    endings := PumpEngine(c, AllClean(), begun, 0);
    var pumped := RuntimeStep(c, AllClean(), begun, PumpDownloads(0));
    PumpedIs(c, AllClean(), begun);
    OneItem(begun.items, worked.items, a);
    ReopenedEmpty(c, pumped);
    ThreeCalls(c, a);
  }

  /** A pump of the runtime, with nothing let go, is one of its scheduler. */
  lemma PumpedIs(c: Client, scanner: Scanner, r: Runtime)
    requires r.waiting == {}
    ensures RuntimeStep(c, scanner, r, PumpDownloads(0)) == AfterRuntimePump(c, scanner, r, 0) && ReleasedDue(r, 0).engine == r.engine
  {
    hide AfterRuntimePump;
    assert Due(r, 0) == {};
    NobodyLetGo(r);
  }

  /** A queue with one private record is read back as nothing. */
  lemma ReopenedEmpty(c: Client, r: Runtime)
    requires |r.items| == 1 && r.items[0].request.privateSession
    ensures RuntimeStep(c, AllClean(), r, Reopen(Between, 0, id => true, 0)) == Reopening(r)
  {
    var items := r.items;
    assert items[..|items| - 1] == [];
    assert ReopenedAll(Reopening(r), [], id => true, 0) == Reopening(r);
  }

  lemma ThreeCalls(c: Client, a: Item)
    ensures var r := RuntimeStep(c, AllClean(), RuntimeStep(c, AllClean(), FirstRuntime(), Begin(a, true, 0)), PumpDownloads(0));
      RuntimeRun(c, AllClean(), [Begin(a, true, 0), PumpDownloads(0), Reopen(Between, 0, id => true, 0)])
      == RuntimeStep(c, AllClean(), r, Reopen(Between, 0, id => true, 0))
  {
    hide RuntimeStep, AllClean;
    OneMoreCall(c, [], Begin(a, true, 0));
    OneMoreCall(c, [Begin(a, true, 0)], PumpDownloads(0));
    OneMoreCall(c, [Begin(a, true, 0)] + [PumpDownloads(0)], Reopen(Between, 0, id => true, 0));
    assert [Begin(a, true, 0)] + [PumpDownloads(0)] + [Reopen(Between, 0, id => true, 0)] == [Begin(a, true, 0), PumpDownloads(0), Reopen(Between, 0, id => true, 0)];
    assert [] + [Begin(a, true, 0)] == [Begin(a, true, 0)];
  }

  lemma OneMoreCall(c: Client, calls: seq<RuntimeCall>, call: RuntimeCall)
    ensures RuntimeRun(c, AllClean(), calls + [call]) == RuntimeStep(c, AllClean(), RuntimeRun(c, AllClean(), calls), call)
  {
    hide RuntimeStep, AllClean;
    assert (calls + [call])[..|calls + [call]| - 1] == calls;
  }

  /** The second session: completed with the planned length, found clean, and released, the first byte a zero that was
      never fetched where the resource has a one. */
  lemma SecondSessionReleases(r: Runtime, a: Item, b: Item, endings: seq<Ending>)
    requires SameUrlOtherName(a, b) && Gated(r) && r.items == [] && r.waiting == {} && r.releases == []
    requires r.engine == Ended(AfterPump(TwoOnes(), Step(TwoOnes(), SchedulerInvariants.Empty(), Enqueue(RecordOf(a))), endings))
    ensures var s := RuntimeStep(TwoOnes(), AllClean(), RuntimeStep(TwoOnes(), AllClean(), r, Begin(b, true, 0)), PumpDownloads(0));
      |s.releases| == 1 && s.releases[0].plan.id == b.id && s.releases[0].bytes == [0, 1]
  {
    hide AfterPump, Step, Worked, TwoOnes, AllClean, FileName, StagedFile, Contents, ReportedBack, RuntimeStep, Ended, Gated, CalledBack, AfterWork, OnlyStates, Numbered, StagedPath, CompleteWrong, HomeOf, Swept, WithState;
    var c := TwoOnes();
    var e := AfterPump(c, Step(c, SchedulerInvariants.Empty(), Enqueue(RecordOf(a))), endings);
    var begun := RuntimeStep(c, AllClean(), r, Begin(b, true, 0));
    EndedLists(e);
    NothingQueued(r, b);
    OneBegun(c, AllClean(), r, b);
    StepGates(c, AllClean(), r, Begin(b, true, 0));
    FirstSession(RecordOf(a), endings);
    var k := SecondSession(e, RecordOf(a), RecordOf(b));
    PumpIs(c, AllClean(), begun);
    var worked := AfterWork(c, ReleasedDue(begun, 0));
    OneItem(begun.items, worked.items, b);
    OneCalledBack(AllClean(), worked, worked.engine.active);
    CleanIsReleased(worked, worked.engine.active[0]);
  }

  lemma EndedLists(e: Engine)
    ensures Ended(e).pending == [] && Ended(e).active == []
  {
  }

  lemma OneItem(items: seq<Item>, after: seq<Item>, b: Item)
    requires items == [b] && OnlyStates(items, after)
    ensures HasItem(after, b.id) && |after| == 1 && after[0].request == b.request
  {
  }

  /** So the client is honest and every finding clean and current, and yet what is released is not the resource. */
  lemma RenamedIsReleasedWrong(a: Item, b: Item)
    requires SameUrlOtherName(a, b)
    ensures HonestClient(TwoOnes(), TwoBytes())
    ensures var r := RuntimeRun(TwoOnes(), AllClean(),
                       [Begin(a, true, 0), PumpDownloads(0), Reopen(Between, 0, id => true, 0), Begin(b, true, 0), PumpDownloads(0)]);
      |r.releases| == 1 && r.releases[0].plan.id == b.id && r.releases[0].bytes == [0, 1]
    ensures forall v :: TwoBytes()(v) == [1, 1]
  {
    hide RuntimeStep, AllClean, TwoOnes, HonestClient, FileName, AfterPump, Step, Gated, RuntimeRun, Numbered;
    TwoOnesIsHonest();
    var c := TwoOnes();
    var first := [Begin(a, true, 0), PumpDownloads(0), Reopen(Between, 0, id => true, 0)];
    var endings := FirstSessionEnds(a, b);
    var r := RuntimeRun(c, AllClean(), first);
    RunIsGated(c, AllClean(), first);
    OneMoreCall(c, first, Begin(b, true, 0));
    OneMoreCall(c, first + [Begin(b, true, 0)], PumpDownloads(0));
    assert first + [Begin(b, true, 0)] + [PumpDownloads(0)]
           == [Begin(a, true, 0), PumpDownloads(0), Reopen(Between, 0, id => true, 0), Begin(b, true, 0), PumpDownloads(0)];
    SecondSessionReleases(r, a, b, endings);
  }
}
