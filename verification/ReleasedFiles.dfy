/** Where a released file is, and how long it stays there. */
module ReleasedFiles {
  import opened Bytes
  import opened Wrappers
  import opened DownloadPlan
  import opened StagedPaths
  import opened HttpTransport
  import opened TransferScheduler
  import opened SchedulerInvariants
  import opened SchedulerTheorems
  import opened PumpEvents
  import opened Provenance
  import opened KeptFiles
  import opened NamedFiles
  import opened DownloadQueue
  import opened Wardveil
  import opened DownloadRuntime
  import opened ReleaseGate
  import opened RuntimeRuns
  import opened ReleasedResource

  // Paths that the scheduler leaves alone.

  /** No file opened is staged at the path, and no listed download ends up there. */
  ghost predicate Clear(e: Engine, path: Path) {
    && (forall id | id in e.names :: StagedPath(e.names[id], id) != path)
    && (forall i | 0 <= i < |e.pending| && e.pending[i].id in e.names :: e.names[e.pending[i].id] != path)
    && (forall i | 0 <= i < |e.active| && e.active[i].record.id in e.names :: e.names[e.active[i].record.id] != path)
  }

  predicate Stays(e: Engine, f: Engine, path: Path) {
    (path in f.files <==> path in e.files) && (path in e.files ==> f.files[path] == e.files[path])
  }

  lemma StaysChains(e: Engine, f: Engine, g: Engine, path: Path)
    requires Stays(e, f, path) && Stays(f, g, path)
    ensures Stays(e, g, path)
  {
  }

  /** The same names, nobody listed anew, and the file where it was. */
  lemma ClearFrame(e: Engine, f: Engine, path: Path)
    requires Clear(e, path) && f.names == e.names
    requires forall i | 0 <= i < |f.pending| :: f.pending[i] in e.pending
    requires forall i | 0 <= i < |f.active| :: ListedId(e, f.active[i].record.id)
    ensures Clear(f, path)
  {
    hide StagedPath;
  }

  predicate ListedId(e: Engine, id: Text) {
    (exists i | 0 <= i < |e.pending| :: e.pending[i].id == id) || (exists i | 0 <= i < |e.active| :: e.active[i].record.id == id)
  }

  lemma ClearActivateOne(c: Client, e: Engine, path: Path)
    requires Clear(e, path) && e.pending != []
    ensures Clear(ActivateOne(c, e), path) && ActivateOne(c, e).files == e.files && ActivateOne(c, e).names == e.names
  {
    hide ActivateOne, Clear;
    var f := ActivateOne(c, e);
    ActivateOneMoves(c, e);
    forall i | 0 <= i < |f.active|
      ensures ListedId(e, f.active[i].record.id)
    {
      if i < |e.active| {
        assert f.active[i] == f.active[..|e.active|][i] == e.active[i];
      } else {
        assert f.active[i].record == e.pending[0];
      }
    }
    ClearFrame(e, f, path);
  }

  lemma {:induction false} ClearActivation(c: Client, e: Engine, scans: nat, path: Path)
    requires Clear(e, path)
    ensures Clear(ActivateUpTo(c, e, scans), path) && ActivateUpTo(c, e, scans).files == e.files && ActivateUpTo(c, e, scans).names == e.names
    decreases scans
  {
    hide Clear, ActivateOne;
    if |e.active| < MAX_ACTIVE && e.pending != [] && scans > 0 {
      ClearActivateOne(c, e, path);
      ClearActivation(c, ActivateOne(c, e), scans - 1, path);
    }
  }

  lemma StreamingStays(c: Client, e: Engine, i: nat, k: nat, path: Path)
    requires Clear(e, path) && i < |e.active| && k < |e.active[i].plan.segments|
    ensures Stays(e, AfterStreaming(c, e, i, k), path) && Clear(AfterStreaming(c, e, i, k), path)
  {
    hide Delivered, StagedPath, ResultOf;
    ClearFrame(e, AfterStreaming(c, e, i, k), path);
  }

  lemma RunOneStays(c: Client, e: Engine, i: nat, path: Path)
    requires Clear(e, path) && Sound(e) && i < |e.active|
    ensures Stays(e, RunOne(c, e, i), path) && Clear(RunOne(c, e, i), path)
  {
    hide Clear, Sound, AfterStreaming, ResultAt, AfterResult, Saved, NameOf;
    var f := RunOne(c, e, i);
    RunOneKeeps(c, e, i);
    RunOneNames(c, e, i);
    forall j | 0 <= j < |f.active|
      ensures ListedId(e, f.active[j].record.id)
    {
      assert e.active[j].record.id == f.active[j].record.id;
    }
    ClearFrame(e, f, path);
    var k := FirstUnfinished(e.active[i].plan.segments);
    if !Skipped(e, i) && k < |e.active[i].plan.segments| {
      StreamingStays(c, e, i, k, path);
    }
  }

  lemma {:induction false} RunStays(c: Client, e: Engine, n: nat, path: Path)
    requires Clear(e, path) && Sound(e) && n <= |e.active|
    ensures Stays(e, RunUpTo(c, e, n), path) && Clear(RunUpTo(c, e, n), path)
  {
    hide Clear, Sound, RunOne;
    if n > 0 {
      RunStays(c, e, n - 1, path);
      RunKeeps(c, e, n - 1);
      RunOneStays(c, RunUpTo(c, e, n - 1), n - 1, path);
      StaysChains(e, RunUpTo(c, e, n - 1), RunUpTo(c, e, n), path);
    }
  }

  lemma WorkStays(c: Client, e: Engine, path: Path)
    requires Clear(e, path) && Sound(e)
    ensures Stays(e, Worked(c, e), path) && Clear(Worked(c, e), path)
  {
    hide Clear, Sound, ActivateUpTo, RunUpTo;
    var activated := ActivateUpTo(c, e, |e.pending|);
    ClearActivation(c, e, |e.pending|, path);
    ActivationKeeps(c, e, |e.pending|);
    RunStays(c, activated, |activated.active|, path);
  }

  lemma InterruptedStays(c: Client, e: Engine, scans: nat, runs: nat, torn: bool, path: Path)
    requires Clear(e, path) && Sound(e)
    ensures Stays(e, Interrupted(c, e, scans, runs, torn), path)
  {
    hide Clear, Sound, ActivateUpTo, RunUpTo, AfterStreaming;
    var activated := ActivateUpTo(c, e, Min(scans, |e.pending|));
    var n := Min(runs, |activated.active|);
    ClearActivation(c, e, Min(scans, |e.pending|), path);
    ActivationKeeps(c, e, Min(scans, |e.pending|));
    RunStays(c, activated, n, path);
    var ran := RunUpTo(c, activated, n);
    if torn && n < |ran.active| && !Skipped(ran, n) && FirstUnfinished(ran.active[n].plan.segments) < |ran.active[n].plan.segments| {
      StreamingStays(c, ran, n, FirstUnfinished(ran.active[n].plan.segments), path);
    }
  }

  /** A callback touches the path its download is staged at, and the one it ends up at. */
  lemma FinishStays(e: Engine, id: Text, ending: Ending, path: Path)
    requires id in e.names ==> e.names[id] != path && StagedPath(e.names[id], id) != path
    ensures Stays(e, Finish(e, id, ending), path)
  {
    hide Off, Rebased, StagedAt, StagedPath, FileAt;
  }

  lemma ReportOneStays(e: Engine, a: Active, ending: Ending, path: Path)
    requires a.record.id in e.names ==> e.names[a.record.id] != path && StagedPath(e.names[a.record.id], a.record.id) != path
    ensures Stays(e, ReportOne(e, a, ending), path)
  {
    hide Finish, CompleteNow, StagedPath;
    FinishStays(NotedComplete(e, a), a.record.id, ending, path);
  }

  lemma ReportsClear(e: Engine, endings: seq<Ending>, n: nat, path: Path)
    requires Clear(e, path) && n <= |e.active|
    ensures Clear(ReportUpTo(e, endings, n), path)
  {
    hide ReportUpTo, StagedPath;
    ReportFrame(e, endings, n);
  }

  lemma {:induction false} ReportsStay(e: Engine, endings: seq<Ending>, n: nat, path: Path)
    requires Clear(e, path) && n <= |e.active|
    ensures Stays(e, ReportUpTo(e, endings, n), path) && Clear(ReportUpTo(e, endings, n), path)
  {
    hide Clear, ReportOne, EndingAt;
    ReportsClear(e, endings, n, path);
    if n > 0 {
      var before, a := ReportUpTo(e, endings, n - 1), e.active[n - 1];
      ReportsStay(e, endings, n - 1, path);
      ClearActive(before, n - 1, path);
      ReportOneStays(before, a, EndingAt(endings, n - 1), path);
      StaysChains(e, before, ReportUpTo(e, endings, n), path);
    }
  }

  lemma ClearActive(e: Engine, i: nat, path: Path)
    requires Clear(e, path) && i < |e.active|
    ensures var id := e.active[i].record.id; id in e.names ==> e.names[id] != path && StagedPath(e.names[id], id) != path
  {
    hide StagedPath;
  }

  lemma PumpStays(c: Client, e: Engine, endings: seq<Ending>, path: Path)
    requires Clear(e, path) && Sound(e)
    ensures Stays(e, AfterPump(c, e, endings), path)
  {
    hide Clear, Sound, Worked, ReportUpTo, Settled;
    WorkStays(c, e, path);
    ReportsStay(Worked(c, e), endings, |Worked(c, e).active|, path);
    StaysChains(e, Worked(c, e), ReportUpTo(Worked(c, e), endings, |Worked(c, e).active|), path);
  }

  lemma WithdrawnStays(e: Engine, id: Text, drops: Option<Text>, path: Path)
    requires drops.Some? ==> StagedPath(drops.value, id) != path
    ensures Stays(e, Withdrawn(e, id, drops), path)
  {
    hide WithoutRecord, WithoutActive, Off, StagedPath;
  }

  // The names that the scheduler knows are those of the queue.

  ghost predicate NamesMatch(r: Runtime) {
    forall id | id in r.engine.names :: HasItem(r.items, id) && r.engine.names[id] == FileName(r.items[FindItem(r.items, id)].request)
  }

  /** Names as they were, and records with their requests. */
  lemma NamesKept(r: Runtime, s: Runtime)
    requires NamesMatch(r) && s.engine.names == r.engine.names && OnlyStates(r.items, s.items)
    ensures NamesMatch(s)
  {
    hide FileName;
    forall id | id in s.engine.names
      ensures HasItem(s.items, id) && s.engine.names[id] == FileName(s.items[FindItem(s.items, id)].request)
    {
      SameIds(r.items, s.items, id);
    }
  }

  /** One record more, whose file may have been opened. */
  lemma NamesAdded(r: Runtime, item: Item, s: Runtime)
    requires NamesMatch(r) && !HasItem(r.items, item.id) && OnlyStates(r.items + [item], s.items)
    requires s.engine.names == r.engine.names || s.engine.names == r.engine.names[item.id := FileName(item.request)]
    ensures NamesMatch(s)
  {
    hide FileName;
    forall id | id in s.engine.names
      ensures HasItem(s.items, id) && s.engine.names[id] == FileName(s.items[FindItem(s.items, id)].request)
    {
      AppendedFind(r.items, item, id);
      SameIds(r.items + [item], s.items, id);
    }
  }

  lemma WorkNames(c: Client, e: Engine)
    requires Sound(e)
    ensures Worked(c, e).names == e.names
  {
    hide Sound, ActivateUpTo, RunUpTo;
    ActivationNames(c, e, |e.pending|);
    ActivationKeeps(c, e, |e.pending|);
    RunNames(c, ActivateUpTo(c, e, |e.pending|), |ActivateUpTo(c, e, |e.pending|).active|);
  }

  lemma {:induction false} ActivationNames(c: Client, e: Engine, scans: nat)
    ensures ActivateUpTo(c, e, scans).names == e.names
    decreases scans
  {
    hide ActivateOne;
    if |e.active| < MAX_ACTIVE && e.pending != [] && scans > 0 {
      ActivateOneMoves(c, e);
      ActivationNames(c, ActivateOne(c, e), scans - 1);
    }
  }

  lemma {:induction false} RunNames(c: Client, e: Engine, n: nat)
    requires n <= |e.active|
    ensures RunUpTo(c, e, n).names == e.names
  {
    hide RunOne;
    if n > 0 {
      RunNames(c, e, n - 1);
      RunOneNames(c, RunUpTo(c, e, n - 1), n - 1);
    }
  }

  lemma PumpNames(c: Client, e: Engine, endings: seq<Ending>)
    requires Sound(e)
    ensures AfterPump(c, e, endings).names == e.names
  {
    hide Sound, Worked, ReportUpTo, Settled;
    WorkNames(c, e);
    ReportFrame(Worked(c, e), endings, |Worked(c, e).active|);
  }

  lemma PumpNamesMatch(c: Client, scanner: Scanner, r: Runtime, now: int)
    requires Gated(r) && NamesMatch(r)
    ensures NamesMatch(AfterRuntimePump(c, scanner, r, now))
  {
    hide Gated, NamesMatch, Sound, AfterPump, ReleasedDue, AfterRuntimePump, OnlyStates;
    LetGo(r, now);
    LetGoNames(r, now);
    GatedSound(ReleasedDue(r, now));
    var endings := PumpEngine(c, scanner, r, now);
    PumpNames(c, ReleasedDue(r, now).engine, endings);
    PumpStates(c, scanner, r, now);
    NamesKept(r, AfterRuntimePump(c, scanner, r, now));
  }

  lemma LetGoNames(r: Runtime, now: int)
    ensures var e := ReleasedDue(r, now).engine; e.names == r.engine.names && e.files == r.engine.files && e.pending == r.engine.pending && e.active == r.engine.active
    ensures ReleasedDue(r, now).items == r.items
  {
    hide Due;
  }

  lemma BegunNames(r: Runtime, item: Item, prepares: bool, now: int)
    requires NamesMatch(r) && New(r, item)
    ensures NamesMatch(Begun(r, item, prepares, now))
  {
    hide NamesMatch, Future, FileName, WithState, CanQueue, HasItem, OnlyStates, StagedPath, Off, Numbered;
    var added := r.items + [item];
    DistinctKept(added, item.id, Cancelled);
    OnlyStatesSelf(added);
    NamesAdded(r, item, Begun(r, item, prepares, now));
  }

  /** These calls open no file, and change no more than states. */
  lemma QuietNames(r: Runtime, id: Text, discard: bool)
    requires NamesMatch(r)
    ensures NamesMatch(AfterRuntimePause(r, id)) && NamesMatch(AfterRuntimeResume(r, id)) && NamesMatch(AfterRuntimeCancel(r, id, discard))
  {
    hide NamesMatch, OnlyStates, AfterRuntimePause, AfterRuntimeResume, AfterRuntimeCancel;
    QuietStates(r, id, discard);
    QuietOpens(r, id, discard);
    NamesKept(r, AfterRuntimePause(r, id));
    NamesKept(r, AfterRuntimeResume(r, id));
    NamesKept(r, AfterRuntimeCancel(r, id, discard));
  }

  lemma QuietOpens(r: Runtime, id: Text, discard: bool)
    ensures AfterRuntimePause(r, id).engine.names == r.engine.names && AfterRuntimeResume(r, id).engine.names == r.engine.names
    ensures AfterRuntimeCancel(r, id, discard).engine.names == r.engine.names
  {
    hide WithState, Known, CanPause, IsPending, IsActive, Withdrawn;
    WithdrawnNames(r.engine, id, if discard && id in r.engine.names then Some(r.engine.names[id]) else None);
  }

  lemma WithdrawnNames(e: Engine, id: Text, drops: Option<Text>)
    ensures Withdrawn(e, id, drops).names == e.names
  {
    hide WithoutRecord, WithoutActive, Off, StagedPath;
  }

  /** A restart changes no more than states, and opens no file but the record's own. */
  lemma RestartStates(r: Runtime, id: Text, prepared: (bool, bool))
    ensures OnlyStates(r.items, AfterRuntimeRestart(r, id, prepared).items)
  {
    hide OnlyStates, WithState, StateOf, Withdrawn, HasFile, CanQueue, FileName, FindItem;
    OnlyStatesSelf(r.items);
    DistinctKept(r.items, id, Queued);
  }

  lemma RestartOpens(r: Runtime, id: Text, prepared: (bool, bool))
    ensures var s := AfterRuntimeRestart(r, id, prepared);
      s.engine.names == r.engine.names
      || (HasItem(r.items, id) && s.engine.names == r.engine.names[id := FileName(r.items[FindItem(r.items, id)].request)])
  {
    hide WithState, Withdrawn, StagedPath, CanQueue, FileName, FindItem;
    if Known(r, id, {Completed, Failed, Cancelled, Held, Blocked}) {
      KnownHas(r, id);
      KnownRecord(r, id);
      var record := RecordOf(r.items[FindItem(r.items, id)]);
      WithdrawnNames(r.engine, id, None);
      WithdrawnNames(r.engine, id, Some(record.name));
    }
  }

  lemma RestartNames(r: Runtime, id: Text, prepared: (bool, bool))
    requires NamesMatch(r)
    ensures NamesMatch(AfterRuntimeRestart(r, id, prepared))
  {
    hide OnlyStates, FileName, FindItem, NamesMatch, AfterRuntimeRestart;
    var s := AfterRuntimeRestart(r, id, prepared);
    RestartStates(r, id, prepared);
    RestartOpens(r, id, prepared);
    if s.engine.names == r.engine.names {
      NamesKept(r, s);
    } else {
      ReopenedName(r, id, s);
    }
  }

  /** The record's own file opened again. */
  lemma ReopenedName(r: Runtime, id: Text, s: Runtime)
    requires NamesMatch(r) && HasItem(r.items, id) && OnlyStates(r.items, s.items)
    requires s.engine.names == r.engine.names || s.engine.names == r.engine.names[id := FileName(r.items[FindItem(r.items, id)].request)]
    ensures NamesMatch(s)
  {
    hide FileName;
    forall x | x in s.engine.names
      ensures HasItem(s.items, x) && s.engine.names[x] == FileName(s.items[FindItem(s.items, x)].request)
    {
      SameIds(r.items, s.items, x);
    }
  }

  lemma ReopenedOneNames(r: Runtime, item: Item, prepares: Text -> bool, now: int)
    requires NamesMatch(r)
    ensures NamesMatch(ReopenedOne(r, item, prepares, now))
  {
    hide NamesMatch, ReopenedOne, FileName, WithState, HasItem, OnlyStates, RestoredItem;
    var s, restored := ReopenedOne(r, item, prepares, now), RestoredItem(item);
    ReopenedLooks(r, item, prepares, now);
    if s != r {
      OnlyStatesSelf(r.items + [restored]);
      DistinctKept(r.items + [restored], item.id, Failed);
      NamesAdded(r, restored, s);
    }
  }

  lemma {:induction false} ReopenedAllNames(r: Runtime, items: seq<Item>, prepares: Text -> bool, now: int)
    requires NamesMatch(r)
    ensures NamesMatch(ReopenedAll(r, items, prepares, now))
  {
    hide NamesMatch, ReopenedOne;
    if items != [] {
      ReopenedAllNames(r, items[..|items| - 1], prepares, now);
      ReopenedOneNames(ReopenedAll(r, items[..|items| - 1], prepares, now), items[|items| - 1], prepares, now);
    }
  }

  lemma StepNames(c: Client, scanner: Scanner, r: Runtime, call: RuntimeCall)
    requires Gated(r) && NamesMatch(r)
    ensures NamesMatch(RuntimeStep(c, scanner, r, call))
  {
    hide Gated, NamesMatch, AfterRuntimePump, Begun, AfterRuntimePause, AfterRuntimeResume, AfterRuntimeCancel, AfterRuntimeRestart, StoppedAt, ReopenedAll, New;
    match call
    case Begin(item, prepares, now) =>
      if New(r, item) {
        BegunNames(r, item, prepares, now);
      }
    case PauseDownload(id) => QuietNames(r, id, false);
    case ResumeDownload(id) => QuietNames(r, id, false);
    case CancelDownload(id, discard) => QuietNames(r, id, discard);
    case RestartDownload(id, prepared) => RestartNames(r, id, prepared);
    case PumpDownloads(now) => PumpNamesMatch(c, scanner, r, now);
    case Reopen(stop, last, destinations, now) =>
      var s := StoppedAt(c, scanner, r, stop, last);
      NoNames(Reopening(s));
      ReopenedAllNames(Reopening(s), s.items, destinations, now);
  }

  lemma NoNames(r: Runtime)
    requires r.engine.names == map[]
    ensures NamesMatch(r)
  {
  }

  lemma {:induction false} RunNamesMatch(c: Client, scanner: Scanner, calls: seq<RuntimeCall>)
    ensures NamesMatch(RuntimeRun(c, scanner, calls))
  {
    hide RuntimeStep, NamesMatch, Gated;
    if calls == [] {
      NoNames(FirstRuntime());
    } else {
      RunNamesMatch(c, scanner, calls[..|calls| - 1]);
      RunIsGated(c, scanner, calls[..|calls| - 1]);
      StepNames(c, scanner, RuntimeRun(c, scanner, calls[..|calls| - 1]), calls[|calls| - 1]);
    }
  }

  // A path that downloads at rest end up at.

  /** A request whose file is neither staged at the path nor ends up there. */
  predicate Elsewhere(item: Item, path: Path) {
    FileName(item.request) != path && StagedPath(FileName(item.request), item.id) != path
  }

  predicate Rests(state: State) {
    state == Completed || state == Cancelled
  }

  /** A record of the file there that is completed or cancelled. */
  predicate RestsThere(item: Item, rest: set<Text>, path: Path) {
    item.id in rest && Rests(item.state) && FileName(item.request) == path
  }

  /** Every record is of a file elsewhere or at rest there. */
  ghost predicate ItemsClear(items: seq<Item>, rest: set<Text>, path: Path) {
    forall i | 0 <= i < |items| :: Elsewhere(items[i], path) || RestsThere(items[i], rest, path)
  }

  lemma ClearFrom(r: Runtime, rest: set<Text>, path: Path)
    requires Gated(r) && NamesMatch(r) && ItemsClear(r.items, rest, path)
    ensures Clear(r.engine, path)
  {
    hide Sound, Resting, Orderly, Proper, HasRelease, FileName, StagedPath;
    forall x | x in r.engine.names
      ensures StagedPath(r.engine.names[x], x) != path
      ensures Listed(r.engine, x) ==> r.engine.names[x] != path
    {
      StagedElsewhere(path, x);
      if Listed(r.engine, x) {
        assert Known(r, x, {Queued, Running, Paused, Failed});
        assert Elsewhere(r.items[FindItem(r.items, x)], path) || RestsThere(r.items[FindItem(r.items, x)], rest, path);
      }
    }
    forall i | 0 <= i < |r.engine.pending|
      ensures Listed(r.engine, r.engine.pending[i].id)
    {
    }
    forall i | 0 <= i < |r.engine.active|
      ensures Listed(r.engine, r.engine.active[i].record.id)
    {
    }
  }

  /** A call that begins no file there, and restarts none of these downloads. */
  predicate CallClear(call: RuntimeCall, rest: set<Text>, path: Path) {
    match call
    case Begin(item, _, _) => Elsewhere(item, path)
    case RestartDownload(x, _) => x !in rest
    case _ => true
  }

  lemma StatesClear(items: seq<Item>, after: seq<Item>, rest: set<Text>, path: Path)
    requires ItemsClear(items, rest, path) && OnlyStates(items, after)
    requires forall i | 0 <= i < |items| && items[i].id in rest && Rests(items[i].state) :: Rests(after[i].state)
    ensures ItemsClear(after, rest, path)
  {
    hide FileName, StagedPath;
    forall i | 0 <= i < |after|
      ensures Elsewhere(after[i], path) || RestsThere(after[i], rest, path)
    {
      assert Elsewhere(items[i], path) || RestsThere(items[i], rest, path);
    }
  }

  /** These downloads stay at rest. */
  ghost predicate StaysAtRest(r: Runtime, s: Runtime, rest: set<Text>) {
    forall id | id in rest && Known(r, id, {Completed, Cancelled}) :: StateOf(s, id) == StateOf(r, id)
  }

  lemma RestingItems(r: Runtime, s: Runtime, rest: set<Text>)
    requires Orderly(r.items) && OnlyStates(r.items, s.items) && StaysAtRest(r, s, rest)
    ensures forall i | 0 <= i < |r.items| && r.items[i].id in rest && Rests(r.items[i].state) :: Rests(s.items[i].state)
  {
    forall i | 0 <= i < |r.items| && r.items[i].id in rest && Rests(r.items[i].state)
      ensures Rests(s.items[i].state)
    {
      var id := r.items[i].id;
      assert FindItem(r.items, id) == i;
      assert Known(r, id, {Completed, Cancelled});
      SameIds(r.items, s.items, id);
    }
  }

  /** A download at rest is not with the scheduler. */
  lemma RestingUnlisted(r: Runtime, id: Text)
    requires Gated(r) && Known(r, id, {Completed, Cancelled})
    ensures !Listed(r.engine, id)
  {
    hide Sound, Resting, Orderly, Proper, HasRelease, Listed;
    assert Listed(r.engine, id) ==> Known(r, id, {Queued, Running, Paused, Failed});
  }

  lemma GatedOrderly(r: Runtime)
    requires Gated(r)
    ensures Orderly(r.items)
  {
    hide Sound, Resting, Orderly, Proper, HasRelease, Tracked, Known;
  }

  lemma PumpRests(c: Client, scanner: Scanner, r: Runtime, now: int, rest: set<Text>)
    requires Gated(r)
    ensures StaysAtRest(r, AfterRuntimePump(c, scanner, r, now), rest)
  {
    hide Gated, AfterRuntimePump, Listed, StateOf, NewRelease;
    var s := AfterRuntimePump(c, scanner, r, now);
    PumpGates(c, scanner, r, now);
    forall id | id in rest && Known(r, id, {Completed, Cancelled})
      ensures StateOf(s, id) == StateOf(r, id)
    {
      assert PumpEffect(r, s, id);
      RestingUnlisted(r, id);
    }
  }

  lemma PumpClear(c: Client, scanner: Scanner, r: Runtime, now: int, rest: set<Text>, path: Path)
    requires Gated(r) && NamesMatch(r) && ItemsClear(r.items, rest, path)
    ensures Stays(r.engine, AfterRuntimePump(c, scanner, r, now).engine, path) && ItemsClear(AfterRuntimePump(c, scanner, r, now).items, rest, path)
  {
    hide Gated, NamesMatch, ItemsClear, Sound, AfterPump, ReleasedDue, AfterRuntimePump, Clear, OnlyStates, Orderly, Listed, StateOf, Proper, NewRelease;
    var released, s := ReleasedDue(r, now), AfterRuntimePump(c, scanner, r, now);
    ClearFrom(r, rest, path);
    LetGo(r, now);
    LetGoNames(r, now);
    SameClear(r.engine, released.engine, path);
    GatedSound(released);
    var endings := PumpEngine(c, scanner, r, now);
    PumpStays(c, released.engine, endings, path);
    StaysChains(r.engine, released.engine, s.engine, path);
    PumpStates(c, scanner, r, now);
    GatedOrderly(r);
    PumpRests(c, scanner, r, now, rest);
    RestingItems(r, s, rest);
    StatesClear(r.items, s.items, rest, path);
  }

  lemma SameClear(e: Engine, f: Engine, path: Path)
    requires Clear(e, path) && f.names == e.names && f.files == e.files && f.pending == e.pending && f.active == e.active
    ensures Clear(f, path) && Stays(e, f, path)
  {
    hide StagedPath;
  }

  /** Beginning a download adds its record, perhaps already cancelled. */
  lemma BegunItems(r: Runtime, item: Item, prepares: bool, now: int)
    ensures var after := Begun(r, item, prepares, now).items;
      after == r.items + [item] || after == WithState(r.items + [item], item.id, Cancelled)
  {
    hide Future, FileName, CanQueue, StagedPath, Off, WithState;
  }

  lemma BegunFiles(r: Runtime, item: Item, prepares: bool, now: int, path: Path)
    requires Elsewhere(item, path)
    ensures Stays(r.engine, Begun(r, item, prepares, now).engine, path)
  {
    hide Future, FileName, CanQueue, AfterQueue, TransferScheduler.AfterPause, Prepared, Dropped, StagedPath, WithState;
    var name := FileName(item.request);
    var prepared := Prepared(r.engine, item.id, name);
    OpenedBeside(r.engine, item.id, name, path);
    QueuedFiles(prepared, RecordOf(item), item.id);
  }

  /** A file opened, and perhaps removed again, is at its own path. */
  lemma OpenedBeside(e: Engine, id: Text, name: Text, path: Path)
    requires StagedPath(name, id) != path
    ensures Stays(e, Prepared(e, id, name), path) && Stays(e, Dropped(Prepared(e, id, name), StagedPath(name, id)), path)
  {
    hide StagedPath, Off;
  }

  lemma QueuedFiles(e: Engine, r: Record, id: Text)
    ensures AfterQueue(e, r).files == e.files && TransferScheduler.AfterPause(AfterQueue(e, r), id).files == e.files
  {
    hide CanQueue, IsPending, IsActive;
  }

  lemma BegunClear(r: Runtime, item: Item, prepares: bool, now: int, rest: set<Text>, path: Path)
    requires ItemsClear(r.items, rest, path) && New(r, item) && Elsewhere(item, path)
    ensures Stays(r.engine, Begun(r, item, prepares, now).engine, path) && ItemsClear(Begun(r, item, prepares, now).items, rest, path)
  {
    hide Begun, Stays, OnlyStates, HasItem, Numbered, WithState, Elsewhere, FileName, ItemsClear;
    var added := r.items + [item];
    OneMoreClear(r.items, item, rest, path);
    BegunItems(r, item, prepares, now);
    BegunFiles(r, item, prepares, now, path);
    DistinctKept(added, item.id, Cancelled);
    NewState(r.items, item, Cancelled);
    StatesClear(added, WithState(added, item.id, Cancelled), rest, path);
  }

  lemma OneMoreClear(items: seq<Item>, item: Item, rest: set<Text>, path: Path)
    requires ItemsClear(items, rest, path) && Elsewhere(item, path)
    ensures ItemsClear(items + [item], rest, path)
  {
    hide Elsewhere, FileName;
  }

  lemma NewState(items: seq<Item>, item: Item, state: State)
    requires !HasItem(items, item.id) && item.state == Queued
    ensures var after := WithState(items + [item], item.id, state);
      |after| == |items| + 1 && forall i | 0 <= i < |items| + 1 && Rests((items + [item])[i].state) :: Rests(after[i].state)
  {
    AppendedFind(items, item, item.id);
  }

  lemma QuietClear(r: Runtime, x: Text, discard: bool, rest: set<Text>, path: Path)
    requires Gated(r) && NamesMatch(r) && ItemsClear(r.items, rest, path)
    ensures Stays(r.engine, AfterRuntimePause(r, x).engine, path) && ItemsClear(AfterRuntimePause(r, x).items, rest, path)
    ensures Stays(r.engine, AfterRuntimeResume(r, x).engine, path) && ItemsClear(AfterRuntimeResume(r, x).items, rest, path)
    ensures Stays(r.engine, AfterRuntimeCancel(r, x, discard).engine, path) && ItemsClear(AfterRuntimeCancel(r, x, discard).items, rest, path)
  {
    hide Gated, NamesMatch, ItemsClear, OnlyStates, WithState, StateOf, Withdrawn, StagedPath, Orderly, AfterRuntimePause, AfterRuntimeResume, AfterRuntimeCancel;
    ClearFrom(r, rest, path);
    GatedOrderly(r);
    QuietFiles(r, x, discard, path);
    OnlyStatesSelf(r.items);
    QuietStates(r, x, discard);
    QuietRests(r, x, discard, rest);
    RestingItems(r, AfterRuntimePause(r, x), rest);
    RestingItems(r, AfterRuntimeResume(r, x), rest);
    RestingItems(r, AfterRuntimeCancel(r, x, discard), rest);
    StatesClear(r.items, AfterRuntimePause(r, x).items, rest, path);
    StatesClear(r.items, AfterRuntimeResume(r, x).items, rest, path);
    StatesClear(r.items, AfterRuntimeCancel(r, x, discard).items, rest, path);
  }

  lemma QuietRests(r: Runtime, x: Text, discard: bool, rest: set<Text>)
    requires Gated(r)
    ensures StaysAtRest(r, AfterRuntimePause(r, x), rest) && StaysAtRest(r, AfterRuntimeResume(r, x), rest)
    ensures StaysAtRest(r, AfterRuntimeCancel(r, x, discard), rest)
  {
    hide Gated, StateOf, IsPending, IsActive, AfterRuntimePause, AfterRuntimeResume, AfterRuntimeCancel;
    PauseGates(r, x);
    CancelGates(r, x, discard);
  }

  lemma QuietStates(r: Runtime, x: Text, discard: bool)
    ensures OnlyStates(r.items, AfterRuntimePause(r, x).items) && OnlyStates(r.items, AfterRuntimeResume(r, x).items)
    ensures OnlyStates(r.items, AfterRuntimeCancel(r, x, discard).items)
  {
    hide OnlyStates, WithState, StateOf, Withdrawn;
    OnlyStatesSelf(r.items);
    DistinctKept(r.items, x, Paused);
    DistinctKept(r.items, x, Queued);
    DistinctKept(r.items, x, Cancelled);
  }

  lemma QuietFiles(r: Runtime, x: Text, discard: bool, path: Path)
    requires Clear(r.engine, path)
    ensures Stays(r.engine, AfterRuntimePause(r, x).engine, path) && Stays(r.engine, AfterRuntimeResume(r, x).engine, path)
    ensures Stays(r.engine, AfterRuntimeCancel(r, x, discard).engine, path)
  {
    hide WithState, StateOf, Withdrawn, StagedPath, IsPending, IsActive;
    WithdrawnStays(r.engine, x, if discard && x in r.engine.names then Some(r.engine.names[x]) else None, path);
  }

  lemma RestartClear(r: Runtime, x: Text, prepared: (bool, bool), rest: set<Text>, path: Path)
    requires Gated(r) && ItemsClear(r.items, rest, path) && x !in rest
    ensures Stays(r.engine, AfterRuntimeRestart(r, x, prepared).engine, path) && ItemsClear(AfterRuntimeRestart(r, x, prepared).items, rest, path)
  {
    hide Gated, ItemsClear, OnlyStates, WithState, StateOf, Orderly, AfterRuntimeRestart;
    GatedOrderly(r);
    RestartGates(r, x, prepared);
    RestartFiles(r, x, prepared, rest, path);
    RestartStates(r, x, prepared);
    RestingItems(r, AfterRuntimeRestart(r, x, prepared), rest);
    StatesClear(r.items, AfterRuntimeRestart(r, x, prepared).items, rest, path);
  }

  lemma RestartFiles(r: Runtime, x: Text, prepared: (bool, bool), rest: set<Text>, path: Path)
    requires ItemsClear(r.items, rest, path) && x !in rest
    ensures Stays(r.engine, AfterRuntimeRestart(r, x, prepared).engine, path)
  {
    hide WithState, StateOf, Withdrawn, StagedPath, CanQueue, FileName, FindItem;
    if Known(r, x, {Completed, Failed, Cancelled, Held, Blocked}) {
      KnownHas(r, x);
      KnownRecord(r, x);
      var record := RecordOf(r.items[FindItem(r.items, x)]);
      assert Elsewhere(r.items[FindItem(r.items, x)], path) || RestsThere(r.items[FindItem(r.items, x)], rest, path);
      WithdrawnStays(r.engine, x, None, path);
      WithdrawnStays(r.engine, x, Some(record.name), path);
    }
  }

  // The end of the program.

  lemma StoppedStays(c: Client, scanner: Scanner, r: Runtime, stop: Stop, now: int, path: Path)
    requires Gated(r) && Clear(r.engine, path)
    ensures Stays(r.engine, StoppedAt(c, scanner, r, stop, now).engine, path)
  {
    hide Gated, Told, HandledAll, ReleasedDue, ReportedAsFar, Sound, MidVerification, Interrupted, Clear, Worked, ReportUpTo, ReportOne;
    var released, s := ReleasedDue(r, now), StoppedAt(c, scanner, r, stop, now);
    LetGo(r, now);
    LetGoNames(r, now);
    SameClear(r.engine, released.engine, path);
    GatedSound(released);
    match stop
    case Between =>
    case InPump(scans, runs, torn, told) =>
      var engine := Interrupted(c, released.engine, scans, runs, torn);
      var events := Told(released.engine, engine);
      InterruptedStays(c, released.engine, scans, runs, torn, path);
      HandledEngine(released.(engine := engine), events[..Min(told, |events|)]);
    case InReports(count) => ReportedAsFarStays(c, scanner, released, count, path);
    case InReport(count, steps) =>
      ReportedAsFarStays(c, scanner, released, count, path);
      var back := ReportedAsFar(c, scanner, released, count);
      if count < |back.engine.active| && back.engine.active[count].finished {
        WorkKeeps(c, released.engine);
        StoppedInReports(c, scanner, released, count, []);
        SoundNames(Worked(c, released.engine), count);
        NotBoth(Worked(c, released.engine), count);
        ClearActive(back.engine, count, path);
        var part := MidEngine(scanner, back, back.engine.active[count], steps);
        ReportOneStays(back.engine, back.engine.active[count], part, path);
        StaysChains(released.engine, back.engine, s.engine, path);
      }
  }

  lemma ReportedAsFarStays(c: Client, scanner: Scanner, r: Runtime, count: nat, path: Path)
    requires Sound(r.engine) && Clear(r.engine, path)
    ensures Stays(r.engine, ReportedAsFar(c, scanner, r, count).engine, path) && Clear(ReportedAsFar(c, scanner, r, count).engine, path)
  {
    hide Sound, ReportedAsFar, Worked, ReportUpTo, Clear;
    var endings := ReportedAsFarEngine(c, scanner, r, count);
    WorkStays(c, r.engine, path);
    ReportsStay(Worked(c, r.engine), endings, |endings|, path);
    StaysChains(r.engine, Worked(c, r.engine), ReportedAsFar(c, scanner, r, count).engine, path);
  }

  lemma ReopenedFiles(r: Runtime, item: Item, prepares: Text -> bool, now: int, path: Path)
    requires Elsewhere(item, path) || Rests(item.state)
    ensures Stays(r.engine, ReopenedOne(r, item, prepares, now).engine, path)
    ensures Rests(item.state) ==> ReopenedOne(r, item, prepares, now) == r
  {
    hide ReopenedOne, FileName, CanRestore, StagedPath, WithState, RestoredItem;
    ReopenedLooks(r, item, prepares, now);
  }

  /** Records read back: the completed one is not among them. */
  lemma ReopenedClear(r: Runtime, item: Item, prepares: Text -> bool, now: int, rest: set<Text>, path: Path)
    requires ItemsClear(r.items, rest, path)
    requires Elsewhere(item, path) || Rests(item.state)
    ensures Stays(r.engine, ReopenedOne(r, item, prepares, now).engine, path) && ItemsClear(ReopenedOne(r, item, prepares, now).items, rest, path)
  {
    hide ReopenedOne, Stays, FileName, HasItem, StagedPath, WithState, RestoredItem, ItemsClear, OnlyStates;
    ReopenedFiles(r, item, prepares, now, path);
    ReopenedLooks(r, item, prepares, now);
    if ReopenedOne(r, item, prepares, now) != r {
      var restored := RestoredItem(item);
      NotResting(item);
      var added := r.items + [restored];
      OneMoreClear(r.items, restored, rest, path);
      DistinctKept(added, item.id, Failed);
      AddedState(r.items, restored, Failed);
      StatesClear(added, WithState(added, item.id, Failed), rest, path);
    }
  }

  lemma NotResting(item: Item)
    ensures !Rests(item.state) ==> !Rests(RestoredItem(item).state)
  {
  }

  lemma AddedState(items: seq<Item>, item: Item, state: State)
    requires !HasItem(items, item.id) && !Rests(item.state)
    ensures var after := WithState(items + [item], item.id, state);
      |after| == |items| + 1 && forall i | 0 <= i < |items| + 1 && Rests((items + [item])[i].state) :: Rests(after[i].state)
  {
    AppendedFind(items, item, item.id);
  }

  lemma {:induction false} ReopenedAllClear(r: Runtime, items: seq<Item>, prepares: Text -> bool, now: int, rest: set<Text>, path: Path)
    requires ItemsClear(r.items, rest, path) && ItemsClear(items, rest, path)
    ensures Stays(r.engine, ReopenedAll(r, items, prepares, now).engine, path) && ItemsClear(ReopenedAll(r, items, prepares, now).items, rest, path)
  {
    hide ReopenedOne, Elsewhere, FileName;
    if items != [] {
      var last := |items| - 1;
      var before := ReopenedAll(r, items[..last], prepares, now);
      ReopenedAllClear(r, items[..last], prepares, now, rest, path);
      ReopenedClear(before, items[last], prepares, now, rest, path);
      StaysChains(r.engine, before.engine, ReopenedAll(r, items, prepares, now).engine, path);
    }
  }

  lemma StoppedRests(c: Client, scanner: Scanner, r: Runtime, stop: Stop, last: int, rest: set<Text>)
    requires Gated(r)
    ensures OnlyStates(r.items, StoppedAt(c, scanner, r, stop, last).items) && StaysAtRest(r, StoppedAt(c, scanner, r, stop, last), rest)
  {
    hide Gated, StoppedAt, OnlyStates, Listed, StateOf, OnDisk;
    var stopped := StoppedAt(c, scanner, r, stop, last);
    StoppedGates(c, scanner, r, stop, last, []);
    forall id | id in rest && Known(r, id, {Completed, Cancelled})
      ensures StateOf(stopped, id) == StateOf(r, id)
    {
      StoppedGates(c, scanner, r, stop, last, id);
      RestingUnlisted(r, id);
    }
  }

  lemma ReopenClear(c: Client, scanner: Scanner, r: Runtime, stop: Stop, last: int, destinations: Text -> bool, now: int, rest: set<Text>, path: Path)
    requires Gated(r) && NamesMatch(r) && ItemsClear(r.items, rest, path)
    ensures var s := Reopened(StoppedAt(c, scanner, r, stop, last), destinations, now);
      Stays(r.engine, s.engine, path) && ItemsClear(s.items, rest, path)
  {
    hide Gated, NamesMatch, ItemsClear, Clear, StoppedAt, ReopenedAll, OnlyStates, Orderly, Listed, StateOf, OnDisk;
    var stopped := StoppedAt(c, scanner, r, stop, last);
    ClearFrom(r, rest, path);
    StoppedStays(c, scanner, r, stop, last, path);
    StoppedRests(c, scanner, r, stop, last, rest);
    GatedOrderly(r);
    RestingItems(r, stopped, rest);
    StatesClear(r.items, stopped.items, rest, path);
    ReadAgainClear(stopped, destinations, now, rest, path);
    StaysChains(r.engine, stopped.engine, Reopened(stopped, destinations, now).engine, path);
  }

  /** The program opened again, after it ended in this state. */
  lemma ReadAgainClear(stopped: Runtime, destinations: Text -> bool, now: int, rest: set<Text>, path: Path)
    requires ItemsClear(stopped.items, rest, path)
    ensures Stays(stopped.engine, Reopened(stopped, destinations, now).engine, path) && ItemsClear(Reopened(stopped, destinations, now).items, rest, path)
  {
    hide ItemsClear, ReopenedAll;
    NothingClear(rest, path);
    ReopenedAllClear(Reopening(stopped), stopped.items, destinations, now, rest, path);
    EndedStays(stopped, path);
    StaysChains(stopped.engine, Reopening(stopped).engine, Reopened(stopped, destinations, now).engine, path);
  }

  lemma NothingClear(rest: set<Text>, path: Path)
    ensures ItemsClear([], rest, path)
  {
  }

  lemma EndedStays(r: Runtime, path: Path)
    ensures Stays(r.engine, Reopening(r).engine, path)
  {
  }

  lemma StepStays(c: Client, scanner: Scanner, r: Runtime, call: RuntimeCall, rest: set<Text>, path: Path)
    requires Gated(r) && NamesMatch(r) && ItemsClear(r.items, rest, path) && CallClear(call, rest, path)
    ensures Stays(r.engine, RuntimeStep(c, scanner, r, call).engine, path) && ItemsClear(RuntimeStep(c, scanner, r, call).items, rest, path)
  {
    hide Gated, NamesMatch, ItemsClear, Elsewhere, AfterRuntimePump, Begun, AfterRuntimePause, AfterRuntimeResume, AfterRuntimeCancel, AfterRuntimeRestart, Reopened, New;
    match call
    case Begin(item, prepares, now) =>
      if New(r, item) {
        BegunClear(r, item, prepares, now, rest, path);
      }
    case PauseDownload(x) => QuietClear(r, x, false, rest, path);
    case ResumeDownload(x) => QuietClear(r, x, false, rest, path);
    case CancelDownload(x, discard) => QuietClear(r, x, discard, rest, path);
    case RestartDownload(x, prepared) => RestartClear(r, x, prepared, rest, path);
    case PumpDownloads(now) => PumpClear(c, scanner, r, now, rest, path);
    case Reopen(stop, last, destinations, now) => ReopenClear(c, scanner, r, stop, last, destinations, now, rest, path);
  }

  lemma {:induction false} RunStaysThere(c: Client, scanner: Scanner, calls: seq<RuntimeCall>, more: seq<RuntimeCall>, rest: set<Text>, path: Path)
    requires ItemsClear(RuntimeRun(c, scanner, calls).items, rest, path) && forall call | call in more :: CallClear(call, rest, path)
    ensures Stays(RuntimeRun(c, scanner, calls).engine, RuntimeRun(c, scanner, calls + more).engine, path)
    ensures ItemsClear(RuntimeRun(c, scanner, calls + more).items, rest, path)
  {
    hide RuntimeStep, Gated, NamesMatch, ItemsClear, CallClear;
    if more == [] {
      assert calls + more == calls;
    } else {
      var shorter := more[..|more| - 1];
      assert (calls + more)[..|calls + more| - 1] == calls + shorter;
      RunStaysThere(c, scanner, calls, shorter, rest, path);
      RunIsGated(c, scanner, calls + shorter);
      RunNamesMatch(c, scanner, calls + shorter);
      StepStays(c, scanner, RuntimeRun(c, scanner, calls + shorter), more[|more| - 1], rest, path);
      StaysChains(RuntimeRun(c, scanner, calls).engine, RuntimeRun(c, scanner, calls + shorter).engine, RuntimeRun(c, scanner, calls + more).engine, path);
    }
  }

  // Where a release lands.

  /** The file at the final path has the length and the digest of what was released. */
  ghost predicate Landed(e: Engine, x: Release) {
    x.path in e.files && |e.files[x.path]| == |x.bytes| && DigestOf(Contents(e.files[x.path])) == DigestOf(x.bytes)
  }

  lemma LandedStays(e: Engine, f: Engine, x: Release)
    requires Landed(e, x) && Stays(e, f, x.path)
    ensures Landed(f, x)
  {
    hide DigestOf, Contents;
  }

  /** A commit moves the staged file to the final path. */
  lemma MovedThere(e: Engine, id: Text)
    requires id in e.names && HomeOf(e, id) in e.files
    ensures var f := Finish(e, id, Ending(Renamed, true)); NameOf(e, id) in f.files && f.files[NameOf(e, id)] == StagedFile(e, id) && f.names == e.names
  {
    hide Off, Rebased, StagedAt, StagedPath;
  }

  lemma CommitLands(p: Plan, since: nat, path: Path, staged: seq<byte>, request: ScanRequest, d: Decision, x: Inspection)
    ensures var v := CommitVerdict(p, since, path, staged, request, d, x);
      v.release.Some? ==> v.state == Completed && v.release.value.plan == p && v.release.value.path == path && DigestOf(v.release.value.bytes) == DigestOf(staged) && |v.release.value.bytes| == p.metadata.total
                          && v.ending == Ending(Renamed, true)
  {
    hide DigestOf;
  }

  lemma VerdictLands(scanner: Scanner, r: Runtime, p: Plan, since: nat)
    ensures var v := VerdictOf(scanner, r, p, since);
      v.release.Some? ==> && v.state == Completed && v.release.value.plan == p && HasItem(r.items, p.id) && v.release.value.path == NameOf(r.engine, p.id) && DigestOf(v.release.value.bytes) == DigestOf(Contents(StagedFile(r.engine, p.id)))
                          && |v.release.value.bytes| == |StagedFile(r.engine, p.id)| && HomeOf(r.engine, p.id) in r.engine.files
                          && v.ending == Ending(Renamed, true)
  {
    hide Evaluate, DigestOf, ResourceId, HasItem, FindItem, StagedFile, CommitVerdict, HomeOf, Contents;
    var staged := Contents(StagedFile(r.engine, p.id));
    var x := scanner(r.scans, p.id, staged);
    SameLength(StagedFile(r.engine, p.id));
    if HasItem(r.items, p.id) {
      var request := ScanRequestOf(r, p.id, staged);
      CommitLands(p, since, NameOf(r.engine, p.id), staged, request, Evaluate(request, x.response, x.now), x);
    }
  }

  /** The released file lies where it was moved to, and its record is completed. */
  ghost predicate Stands(s: Runtime, x: Release) {
    Landed(s.engine, x) && Known(s, x.plan.id, {Completed}) && x.plan.id in s.engine.names && s.engine.names[x.plan.id] == x.path
  }

  /** A report that releases, and where to. */
  lemma ReportedLands(scanner: Scanner, r: Runtime, a: Active)
    requires a.plan.id == a.record.id && !(a.finished && a.failed)
    ensures var s := ReportedBack(scanner, r, a);
      s.releases == r.releases
      || (|s.releases| == |r.releases| + 1 && r.releases <= s.releases && s.releases[|r.releases|].plan.id == a.record.id
          && Stands(s, s.releases[|r.releases|]))
  {
    hide VerdictOf, Concluded, Marked, NotedComplete, FailedId, Verifies, Stands;
    if a.finished {
      var noted := r.(engine := NotedComplete(r.engine, a));
      NotedLooks(r.engine, a);
      var begun := Verifies(noted, a.plan.id);
      var v := VerdictOf(scanner, begun, a.plan, a.since);
      VerdictFits(scanner, begun, a.plan, a.since);
      if a.plan.id in r.engine.names {
        VerifiesLooks(noted, a.plan.id);
        VerdictLands(scanner, begun, a.plan, a.since);
        ConcludedLands(begun, a.plan.id, v);
      }
      UnreleasedMark(noted, a.plan.id);
    } else {
      UnreleasedMark(r.(engine := FailedId(r.engine, a.record.id)), a.record.id);
    }
  }

  lemma VerifiesLooks(r: Runtime, id: Text)
    ensures Verifies(r, id).engine == r.engine && Verifies(r, id).releases == r.releases
  {
    hide WithState;
  }

  lemma UnreleasedMark(r: Runtime, id: Text)
    ensures Marked(r, id, Failed).releases == r.releases
  {
    hide WithState;
  }

  /** A verification that releases moves the file to where it says, and completes the record. */
  lemma ConcludedLands(r: Runtime, id: Text, v: Verdict)
    requires id in r.engine.names
    requires v.release.Some? ==>
      && v.ending == Ending(Renamed, true) && v.state == Completed && HasItem(r.items, id) && HomeOf(r.engine, id) in r.engine.files
      && v.release.value.plan.id == id && v.release.value.path == NameOf(r.engine, id)
      && DigestOf(v.release.value.bytes) == DigestOf(Contents(StagedFile(r.engine, id))) && |v.release.value.bytes| == |StagedFile(r.engine, id)|
    ensures var s := Concluded(r, id, v);
      if v.release.None? then s.releases == r.releases else s.releases == r.releases + [v.release.value] && Stands(s, v.release.value)
  {
    hide Finish, WithState, HomeOf, StagedFile, DigestOf, Contents, StateOf, HasItem;
    if v.release.Some? {
      MovedThere(r.engine, id);
      HasState(r, id);
      SameStates(r, Noting(r, id, v.ending, v));
      MarkedSets(Noting(r, id, v.ending, v), id, Completed);
    }
  }

  lemma HasState(r: Runtime, id: Text)
    ensures HasItem(r.items, id) <==> StateOf(r, id).Some?
  {
  }

  lemma NotedLooks(e: Engine, a: Active)
    ensures var f := NotedComplete(e, a);
      f.names == e.names && f.files == e.files && forall id :: StagedFile(f, id) == StagedFile(e, id) && HomeOf(f, id) == HomeOf(e, id) && NameOf(f, id) == NameOf(e, id)
  {
    hide CompleteNow, StagedPath;
  }

  /** None of these other downloads is staged at the path or ends up there. */
  ghost predicate OthersElsewhere(e: Engine, actives: seq<Active>, id: Text, path: Path) {
    forall i | 0 <= i < |actives| && actives[i].record.id != id && actives[i].record.id in e.names ::
      e.names[actives[i].record.id] != path && StagedPath(e.names[actives[i].record.id], actives[i].record.id) != path
  }

  ghost predicate DistinctActives(actives: seq<Active>) {
    forall i, j | 0 <= i < j < |actives| :: actives[i].record.id != actives[j].record.id
  }

  /** The releases made so far of a download are where they were moved to. */
  ghost predicate AllLanded(r: Runtime, s: Runtime, id: Text, path: Path) {
    forall k | |r.releases| <= k < |s.releases| && s.releases[k].plan.id == id && s.releases[k].path == path :: Stands(s, s.releases[k])
  }

  ghost predicate NoneOf(r: Runtime, s: Runtime, id: Text) {
    forall k | |r.releases| <= k < |s.releases| :: s.releases[k].plan.id != id
  }

  lemma ReportedBackStays(scanner: Scanner, r: Runtime, a: Active, path: Path)
    requires a.plan.id == a.record.id
    requires a.record.id in r.engine.names ==> r.engine.names[a.record.id] != path && StagedPath(r.engine.names[a.record.id], a.record.id) != path
    ensures Stays(r.engine, ReportedBack(scanner, r, a).engine, path)
  {
    hide ReportedBack, ReportOne, StagedPath;
    var ending := ReportedEngine(scanner, r, a);
    ReportOneStays(r.engine, a, ending, path);
  }

  /** What is released stays where it is while other downloads are reported. */
  lemma StandsStill(scanner: Scanner, r: Runtime, a: Active, x: Release)
    requires Stands(r, x) && a.plan.id == a.record.id != x.plan.id && !(a.finished && a.failed)
    requires a.record.id in r.engine.names ==> r.engine.names[a.record.id] != x.path && StagedPath(r.engine.names[a.record.id], a.record.id) != x.path
    ensures Stands(ReportedBack(scanner, r, a), x)
  {
    hide ReportedBack, StagedPath, Landed, StateOf, Beside, Proper;
    ReportedBackStays(scanner, r, a, x.path);
    LandedStays(r.engine, ReportedBack(scanner, r, a).engine, x);
    ReportedEffect(scanner, r, a);
    ReportedLists(scanner, r, a);
  }

  lemma {:induction false} CalledBackLands(scanner: Scanner, r: Runtime, actives: seq<Active>, id: Text, path: Path)
    requires WellReported(actives) && DistinctActives(actives) && OthersElsewhere(r.engine, actives, id, path)
    ensures var s := CalledBack(scanner, r, actives);
      && r.releases <= s.releases && s.engine.names == r.engine.names && AllLanded(r, s, id, path)
      && ((forall i | 0 <= i < |actives| :: actives[i].record.id != id) ==> NoneOf(r, s, id))
  {
    hide ReportedBack, Stands, StagedPath;
    if actives != [] {
      var last := |actives| - 1;
      var before, a, s := CalledBack(scanner, r, actives[..last]), actives[last], CalledBack(scanner, r, actives);
      CalledBackLands(scanner, r, actives[..last], id, path);
      ReportedLands(scanner, before, a);
      ReportedLists(scanner, before, a);
      if a.record.id != id {
        forall k | |r.releases| <= k < |s.releases| && s.releases[k].plan.id == id && s.releases[k].path == path
          ensures Stands(s, s.releases[k])
        {
          StandsStill(scanner, before, a, before.releases[k]);
        }
      } else {
        assert NoneOf(r, before, id);
      }
    }
  }

  /** Before a pump: every other record is of a file elsewhere or at rest there. */
  ghost predicate OthersRest(items: seq<Item>, id: Text, rest: set<Text>, path: Path) {
    forall i | 0 <= i < |items| && items[i].id != id :: Elsewhere(items[i], path) || RestsThere(items[i], rest, path)
  }

  /** So what a pump releases under a name, where every other record of that name is at rest and no other is staged at its
      path, is there as long as only others are reported. */
  lemma AsFarLands(c: Client, scanner: Scanner, r: Runtime, now: int, count: nat, id: Text, rest: set<Text>, path: Path)
    requires Gated(r) && NamesMatch(r) && OthersRest(r.items, id, rest, path)
    ensures var actives, s := AfterWork(c, ReleasedDue(r, now)).engine.active, ReportedAsFar(c, scanner, ReleasedDue(r, now), count);
      && r.releases <= s.releases && s.engine.names == r.engine.names && s.engine.active == actives && AllLanded(r, s, id, path)
      && WellReported(actives) && DistinctActives(actives) && OthersElsewhere(s.engine, actives, id, path)
      && ((forall i | 0 <= i < Min(count, |actives|) :: actives[i].record.id != id) ==> NoneOf(r, s, id))
  {
    hide Gated, NamesMatch, ReleasedDue, AfterWork, CalledBack, Sound, Worked, Elsewhere, Stands, Orderly, Listed, StateOf, OnlyStates, OthersRest, Proper, WellReported, Known;
    var released := ReleasedDue(r, now);
    LetGo(r, now);
    LetGoNames(r, now);
    GatedSound(released);
    WorkEngine(c, released);
    WorkNames(c, released.engine);
    var worked := AfterWork(c, released);
    var actives := worked.engine.active;
    WorkKeeps(c, released.engine);
    SoundReported(worked.engine);
    SoundIds(worked.engine);
    WorkNotResting(c, r, now);
    OthersFrom(r, worked.engine, id, rest, path);
    FirstReported(actives, Min(count, |actives|));
    CalledBackLands(scanner, worked, actives[..Min(count, |actives|)], id, path);
    AsFarActives(scanner, worked, actives[..Min(count, |actives|)]);
  }

  lemma AsFarActives(scanner: Scanner, r: Runtime, actives: seq<Active>)
    requires WellReported(actives)
    ensures CalledBack(scanner, r, actives).engine.active == r.engine.active
  {
    hide CalledBack, Beside, Proper, StateOf, WellReported;
    CalledBackOutcome(scanner, r, actives, []);
    BesideReleases(r, CalledBack(scanner, r, actives));
  }

  lemma FirstReported(actives: seq<Active>, n: nat)
    requires WellReported(actives) && n <= |actives|
    ensures WellReported(actives[..n])
  {
  }

  lemma PumpLands(c: Client, scanner: Scanner, r: Runtime, now: int, k: nat, rest: set<Text>)
    requires Gated(r) && NamesMatch(r)
    requires var s := AfterRuntimePump(c, scanner, r, now);
      |r.releases| <= k < |s.releases| && OthersRest(r.items, s.releases[k].plan.id, rest, s.releases[k].path)
    ensures Stands(AfterRuntimePump(c, scanner, r, now), AfterRuntimePump(c, scanner, r, now).releases[k])
  {
    hide Gated, NamesMatch, ReleasedDue, AfterWork, CalledBack, Settled, Landed, StateOf, WellReported, DistinctActives, OthersElsewhere, OthersRest;
    var s := AfterRuntimePump(c, scanner, r, now);
    var actives := AfterWork(c, ReleasedDue(r, now)).engine.active;
    AsFarLands(c, scanner, r, now, |actives|, s.releases[k].plan.id, rest, s.releases[k].path);
    assert actives[..|actives|] == actives;
    var back := ReportedAsFar(c, scanner, ReleasedDue(r, now), |actives|);
    LandedStays(back.engine, Swept(back.engine), s.releases[k]);
    SameStates(back, s);
  }

  /** And what a pump released that the end of the program cut off, when it had completed its download. */
  lemma StopLands(c: Client, scanner: Scanner, r: Runtime, stop: Stop, now: int, k: nat, rest: set<Text>)
    requires Gated(r) && NamesMatch(r)
    requires var s := StoppedAt(c, scanner, r, stop, now);
      && |r.releases| <= k < |s.releases| && OthersRest(r.items, s.releases[k].plan.id, rest, s.releases[k].path)
      && Known(s, s.releases[k].plan.id, {Completed})
    ensures Stands(StoppedAt(c, scanner, r, stop, now), StoppedAt(c, scanner, r, stop, now).releases[k])
  {
    hide Gated, NamesMatch, ReleasedDue, AfterWork, ReportedAsFar, MidVerification, Interrupted, Stands, Known, WellReported, DistinctActives, OthersElsewhere, OthersRest, NoneOf;
    var released, s := ReleasedDue(r, now), StoppedAt(c, scanner, r, stop, now);
    var id, path := s.releases[k].plan.id, s.releases[k].path;
    LetGo(r, now);
    match stop
    case Between => assert false;
    case InPump(scans, runs, torn, told) =>
      CutWorkReleases(released, Interrupted(c, released.engine, scans, runs, torn), told);
      assert false;
    case InReports(count) => AsFarLands(c, scanner, r, now, count, id, rest, path);
    case InReport(count, steps) =>
      AsFarLands(c, scanner, r, now, count, id, rest, path);
      var back := ReportedAsFar(c, scanner, released, count);
      if count < |back.engine.active| && back.engine.active[count].finished {
        MidLands(scanner, r, back, back.engine.active, count, steps, k);
      }
  }

  lemma CutWorkReleases(r: Runtime, engine: Engine, told: nat)
    ensures WorkedAsFar(r, engine, told).releases == r.releases
  {
    hide HandledAll, Told;
    var events := Told(r.engine, engine);
    HandledEngine(r.(engine := engine), events[..Min(told, |events|)]);
  }

  /** A verification cut off completes nothing, and leaves alone what was released before it. */
  lemma MidLands(scanner: Scanner, r: Runtime, back: Runtime, actives: seq<Active>, count: nat, steps: nat, k: nat)
    requires actives == back.engine.active && count < |actives| && actives[count].finished && WellReported(actives) && DistinctActives(actives)
    requires var s := MidVerification(scanner, back, actives[count], steps);
      && |r.releases| <= k < |s.releases| && Known(s, s.releases[k].plan.id, {Completed})
      && AllLanded(r, back, s.releases[k].plan.id, s.releases[k].path) && r.releases <= back.releases
      && OthersElsewhere(back.engine, actives, s.releases[k].plan.id, s.releases[k].path)
      && ((forall i | 0 <= i < count :: actives[i].record.id != s.releases[k].plan.id) ==> NoneOf(r, back, s.releases[k].plan.id))
    ensures Stands(MidVerification(scanner, back, actives[count], steps), MidVerification(scanner, back, actives[count], steps).releases[k])
  {
    hide MidVerification, Landed, StateOf, ReportOne, StagedPath;
    var a, s := actives[count], MidVerification(scanner, back, actives[count], steps);
    MidReleases(scanner, back, a, steps);
    var x := s.releases[k];
    if k < |back.releases| {
      assert back.releases[k] == x;
      assert a.record.id != x.plan.id;
      MidOther(scanner, back, a, steps, x.plan.id);
      var part := MidEngine(scanner, back, a, steps);
      ReportOneStays(back.engine, a, part, x.path);
      LandedStays(back.engine, s.engine, x);
    } else {
      assert false;
    }
  }

  /** What a verification cut off releases is of its own download, whose record says verifying. */
  lemma MidReleases(scanner: Scanner, r: Runtime, a: Active, steps: nat)
    ensures var s := MidVerification(scanner, r, a, steps);
      s.releases == r.releases
      || (|s.releases| == |r.releases| + 1 && r.releases <= s.releases && !Known(s, s.releases[|r.releases|].plan.id, {Completed}))
  {
    hide VerdictOf, Verifies, Noting, NotedComplete;
    var noted := r.(engine := NotedComplete(r.engine, a));
    if a.plan.id in noted.engine.names {
      var begun := Verifies(noted, a.plan.id);
      var v := VerdictOf(scanner, begun, a.plan, a.since);
      VerifiesLooks(noted, a.plan.id);
      VerdictFits(scanner, begun, a.plan, a.since);
      VerdictLands(scanner, begun, a.plan, a.since);
      NotedReleases(begun, a.plan.id, PartOf(v.ending, steps), v);
      NotedItems(begun, a.plan.id, PartOf(v.ending, steps), v);
      VerifyingState(noted, a.plan.id, a.plan.id);
      SameStates(begun, Noting(begun, a.plan.id, PartOf(v.ending, steps), v));
    }
  }

  lemma MidOther(scanner: Scanner, r: Runtime, a: Active, steps: nat, id: Text)
    requires id != a.plan.id
    ensures var s := MidVerification(scanner, r, a, steps); StateOf(s, id) == StateOf(r, id) && s.engine.names == r.engine.names
  {
    hide VerdictOf, Verifies, Noting, NotedComplete, StateOf;
    var noted := r.(engine := NotedComplete(r.engine, a));
    NotedLooks(r.engine, a);
    SameStates(r, noted);
    if a.plan.id in noted.engine.names {
      var begun := Verifies(noted, a.plan.id);
      var v := VerdictOf(scanner, begun, a.plan, a.since);
      VerifiesLooks(noted, a.plan.id);
      NotedItems(begun, a.plan.id, PartOf(v.ending, steps), v);
      VerifyingState(noted, a.plan.id, id);
      SameStates(begun, Noting(begun, a.plan.id, PartOf(v.ending, steps), v));
    }
  }

  lemma NotedItems(r: Runtime, id: Text, ending: Ending, v: Verdict)
    ensures Noting(r, id, ending, v).items == r.items && Noting(r, id, ending, v).engine.names == r.engine.names
  {
    hide Off, Rebased, StagedAt, StagedPath;
  }

  lemma VerifyingState(r: Runtime, id: Text, other: Text)
    ensures StateOf(Verifies(r, id), other) == if other == id && StateOf(r, id).Some? then Some(Verifying) else StateOf(r, other)
  {
    hide WithState, StateOf;
    StateAfter(r, id, Verifying, other);
    SameStates(r.(items := WithState(r.items, id, Verifying)), Verifies(r, id));
  }

  /** A pump works on downloads that are not at rest. */
  lemma WorkNotResting(c: Client, r: Runtime, now: int)
    requires Gated(r)
    ensures var e := AfterWork(c, ReleasedDue(r, now)).engine;
      forall i | 0 <= i < |e.active| :: !Known(r, e.active[i].record.id, {Completed, Cancelled})
  {
    hide Gated, ReleasedDue, AfterWork, StateOf, Sound, Orderly, OnlyStates, Worked, Known;
    var e := AfterWork(c, ReleasedDue(r, now)).engine;
    LetGo(r, now);
    LetGoListed(r, now);
    forall i | 0 <= i < |e.active|
      ensures !Known(r, e.active[i].record.id, {Completed, Cancelled})
    {
      WorkEffect(c, ReleasedDue(r, now), e.active[i].record.id);
      if Known(r, e.active[i].record.id, {Completed, Cancelled}) {
        RestingUnlisted(r, e.active[i].record.id);
      }
    }
  }

  lemma OthersFrom(r: Runtime, e: Engine, id: Text, rest: set<Text>, path: Path)
    requires NamesMatch(r) && e.names == r.engine.names && OthersRest(r.items, id, rest, path)
    requires forall i | 0 <= i < |e.active| :: !Known(r, e.active[i].record.id, {Completed, Cancelled})
    ensures OthersElsewhere(e, e.active, id, path)
  {
    hide FileName, StagedPath;
    forall i | 0 <= i < |e.active| && e.active[i].record.id != id && e.active[i].record.id in e.names
      ensures e.names[e.active[i].record.id] != path && StagedPath(e.names[e.active[i].record.id], e.active[i].record.id) != path
    {
      var x := e.active[i].record.id;
      assert HasItem(r.items, x) && r.items[FindItem(r.items, x)].id == x;
      assert Elsewhere(r.items[FindItem(r.items, x)], path) || RestsThere(r.items[FindItem(r.items, x)], rest, path);
    }
  }

  /** The state that a call leaves, before the program is opened again if it ended. */
  ghost function Left(c: Client, scanner: Scanner, r: Runtime, call: RuntimeCall): Runtime {
    if call.Reopen? then StoppedAt(c, scanner, r, call.stop, call.last) else RuntimeStep(c, scanner, r, call)
  }

  /** And it stays there, through every further call and every end of the program, as long as no download is begun under
      that name or staged at its path, and none of those that had the name before is restarted: the released file of a
      completed download has the length and the digest of the bytes that were found clean. */
  lemma ReleasedFileStands(c: Client, scanner: Scanner, calls: seq<RuntimeCall>, call: RuntimeCall, more: seq<RuntimeCall>, k: nat, rest: set<Text>)
    requires call.PumpDownloads? || call.Reopen?
    requires var r := RuntimeRun(c, scanner, calls);
      var s := Left(c, scanner, r, call);
      && |r.releases| <= k < |s.releases| && Known(s, s.releases[k].plan.id, {Completed})
      && OthersRest(r.items, s.releases[k].plan.id, rest, s.releases[k].path)
      && forall next | next in more :: CallClear(next, rest + {s.releases[k].plan.id}, s.releases[k].path)
    ensures Landed(RuntimeRun(c, scanner, calls + [call] + more).engine, Left(c, scanner, RuntimeRun(c, scanner, calls), call).releases[k])
  {
    hide RuntimeRun, Gated, NamesMatch, OthersRest, Landed, CallClear, Left;
    var r := RuntimeRun(c, scanner, calls);
    var x := Left(c, scanner, r, call).releases[k];
    OneCallMore(c, scanner, calls, call);
    RunIsGated(c, scanner, calls);
    RunNamesMatch(c, scanner, calls);
    CallLands(c, scanner, r, call, k, rest);
    RunStaysThere(c, scanner, calls + [call], more, rest + {x.plan.id}, x.path);
    LandedStays(RuntimeRun(c, scanner, calls + [call]).engine, RuntimeRun(c, scanner, calls + [call] + more).engine, x);
  }

  lemma OneCallMore(c: Client, scanner: Scanner, calls: seq<RuntimeCall>, call: RuntimeCall)
    ensures RuntimeRun(c, scanner, calls + [call]) == RuntimeStep(c, scanner, RuntimeRun(c, scanner, calls), call)
  {
    hide RuntimeStep;
    assert (calls + [call])[..|calls + [call]| - 1] == calls;
  }

  /** The call that releases it leaves it there, and no other record that could move it. */
  lemma CallLands(c: Client, scanner: Scanner, r: Runtime, call: RuntimeCall, k: nat, rest: set<Text>)
    requires Gated(r) && NamesMatch(r) && (call.PumpDownloads? || call.Reopen?)
    requires var s := Left(c, scanner, r, call);
      && |r.releases| <= k < |s.releases| && Known(s, s.releases[k].plan.id, {Completed})
      && OthersRest(r.items, s.releases[k].plan.id, rest, s.releases[k].path)
    ensures var x := Left(c, scanner, r, call).releases[k];
      Landed(RuntimeStep(c, scanner, r, call).engine, x) && ItemsClear(RuntimeStep(c, scanner, r, call).items, rest + {x.plan.id}, x.path)
  {
    hide Gated, NamesMatch, OthersRest, Landed, AfterRuntimePump, StoppedAt, Reopened, OnlyStates, StateOf, StaysAtRest, ItemsClear;
    var s := Left(c, scanner, r, call);
    var x := s.releases[k];
    GatedOrderly(r);
    match call
    case PumpDownloads(now) =>
      PumpLands(c, scanner, r, now, k, rest);
      PumpStates(c, scanner, r, now);
      PumpRests(c, scanner, r, now, rest);
      PumpNamesMatch(c, scanner, r, now);
      StandingClear(r, s, x, rest);
    case Reopen(stop, last, destinations, now) =>
      StopLands(c, scanner, r, stop, last, k, rest);
      StoppedRests(c, scanner, r, stop, last, rest);
      StoppedNames(c, scanner, r, stop, last);
      NamesKept(r, s);
      StandingClear(r, s, x, rest);
      ReadAgainClear(s, destinations, now, rest + {x.plan.id}, x.path);
      LandedStays(s.engine, Reopened(s, destinations, now).engine, x);
  }

  /** The end of the program opens no file. */
  lemma StoppedNames(c: Client, scanner: Scanner, r: Runtime, stop: Stop, now: int)
    requires Gated(r)
    ensures StoppedAt(c, scanner, r, stop, now).engine.names == r.engine.names
  {
    hide Gated, ReleasedDue, HandledAll, Told, Interrupted, ReportedAsFar, MidVerification, Sound, Worked, ReportUpTo;
    var released := ReleasedDue(r, now);
    LetGo(r, now);
    LetGoNames(r, now);
    GatedSound(released);
    match stop
    case Between =>
    case InPump(scans, runs, torn, told) =>
      var engine := Interrupted(c, released.engine, scans, runs, torn);
      InterruptedNames(c, released.engine, scans, runs, torn);
      HandledEngine(released.(engine := engine), Told(released.engine, engine)[..Min(told, |Told(released.engine, engine)|)]);
    case InReports(count) => AsFarNames(c, scanner, released, count);
    case InReport(count, steps) =>
      AsFarNames(c, scanner, released, count);
      var back := ReportedAsFar(c, scanner, released, count);
      if count < |back.engine.active| && back.engine.active[count].finished {
        MidNames(scanner, back, back.engine.active[count], steps);
      }
  }

  lemma AsFarNames(c: Client, scanner: Scanner, r: Runtime, count: nat)
    requires Sound(r.engine)
    ensures ReportedAsFar(c, scanner, r, count).engine.names == r.engine.names
  {
    hide Sound, ReportedAsFar, Worked, ReportUpTo;
    var endings := ReportedAsFarEngine(c, scanner, r, count);
    WorkNames(c, r.engine);
    ReportFrame(Worked(c, r.engine), endings, |endings|);
  }

  lemma MidNames(scanner: Scanner, r: Runtime, a: Active, steps: nat)
    ensures MidVerification(scanner, r, a, steps).engine.names == r.engine.names
  {
    hide VerdictOf, Verifies, Noting, NotedComplete;
    var noted := r.(engine := NotedComplete(r.engine, a));
    NotedLooks(r.engine, a);
    if a.plan.id in noted.engine.names {
      var begun := Verifies(noted, a.plan.id);
      VerifiesLooks(noted, a.plan.id);
      var v := VerdictOf(scanner, begun, a.plan, a.since);
      NotedItems(begun, a.plan.id, PartOf(v.ending, steps), v);
    }
  }

  lemma InterruptedNames(c: Client, e: Engine, scans: nat, runs: nat, torn: bool)
    requires Sound(e)
    ensures Interrupted(c, e, scans, runs, torn).names == e.names
  {
    hide Sound, ActivateUpTo, RunUpTo, FilesAfter;
    var activated := ActivateUpTo(c, e, Min(scans, |e.pending|));
    ActivationNames(c, e, Min(scans, |e.pending|));
    ActivationKeeps(c, e, Min(scans, |e.pending|));
    RunNames(c, activated, Min(runs, |activated.active|));
  }

  /** The released download is at rest now, and those that were are. */
  lemma StandingClear(r: Runtime, s: Runtime, x: Release, rest: set<Text>)
    requires Orderly(r.items) && OnlyStates(r.items, s.items) && StaysAtRest(r, s, rest) && NamesMatch(s)
    requires Stands(s, x) && OthersRest(r.items, x.plan.id, rest, x.path)
    ensures ItemsClear(s.items, rest + {x.plan.id}, x.path)
  {
    hide FileName, StagedPath, Landed, StaysAtRest;
    RestingItems(r, s, rest);
    SameIds(r.items, s.items, x.plan.id);
    forall i | 0 <= i < |s.items|
      ensures Elsewhere(s.items[i], x.path) || RestsThere(s.items[i], rest + {x.plan.id}, x.path)
    {
      assert s.items[i] == r.items[i].(state := s.items[i].state);
      if r.items[i].id == x.plan.id {
        assert FindItem(r.items, x.plan.id) == i;
      } else {
        assert Elsewhere(r.items[i], x.path) || RestsThere(r.items[i], rest, x.path);
      }
    }
  }
}
