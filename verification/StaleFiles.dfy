/** The runs in which a checkpoint is applied over a file that it was not saved over: a download whose id comes up again
    under another file name, and a program that ends between moving a file away and erasing its checkpoint. */
module StaleFiles {
  import opened Bytes
  import opened Wrappers
  import opened DownloadPlan
  import opened DownloadCheckpoint
  import opened StagedPaths
  import opened HttpTransport
  import opened TransferScheduler
  import opened SchedulerInvariants
  import opened SchedulerTheorems
  import opened PumpEvents
  import opened Provenance
  import opened KeptFiles
  import opened EndToEnd

  /** What is left on disk for a download that starts with a file of its own, made new, and an older checkpoint. */
  ghost predicate LeftOver(c: Client, e: Engine, r: Record, m: Metadata) {
    && r.id != [] && r.url != []
    && r.id in e.checkpoints && Genuine(e.checkpoints[r.id]) && StagedPath(r.name, r.id) !in e.files
    && Inspected(c.inspect(e.calls, r.url, r.referrer)) == Some(m) && m.total > 0
    && SameHeader(NewPlan(r, m, MAX_SEGMENTS), e.checkpoints[r.id])
  }

  /** A checkpoint that matches is restored whole. */
  lemma LeftOverRestores(c: Client, e: Engine, r: Record, m: Metadata)
    requires LeftOver(c, e, r, m)
    ensures RestoredPlan(e.checkpoints, NewPlan(r, m, MAX_SEGMENTS)) == NewPlan(r, m, MAX_SEGMENTS).(segments := e.checkpoints[r.id].segments, done := e.checkpoints[r.id].done)
  {
    hide Underway, Layout, SegmentCount, Inspected;
    var begun, saved := NewPlan(r, m, MAX_SEGMENTS), e.checkpoints[r.id];
    NewPlanUnderway(r, m, MAX_SEGMENTS);
    PlanIsFair(r, m, MAX_SEGMENTS);
    CountBounds(r, m, MAX_SEGMENTS);
    assert CheckpointOf(PlanOf(saved)) == saved;
    GenuineIsAllOrNothing(PlanOf(saved), begun, SegmentCount(r, m, MAX_SEGMENTS));
  }

  /** The state in which it starts: over an empty file, with everything the checkpoint says counted as done. */
  ghost predicate StartedOver(started: Engine, before: Engine, r: Record, m: Metadata) {
    && |started.active| == 1 && started.active[0].record == r && !started.active[0].finished && !started.active[0].failed
    && r.id in before.checkpoints && started.active[0].plan == NewPlan(r, m, MAX_SEGMENTS).(segments := before.checkpoints[r.id].segments, done := before.checkpoints[r.id].done)
    && started.active[0].since < |started.log|
    && started.log[started.active[0].since].Activated? && started.log[started.active[0].since].found == []
    && started.log[started.active[0].since].plan == started.active[0].plan
    && started.files == before.files[StagedPath(r.name, r.id) := []] && started.names == map[r.id := r.name]
    && r.id in started.bases && started.bases[r.id] == Basis(started.active[0].plan, [])
    && started.paused == {} && started.cancelled == {} && started.calls == before.calls + 1
    && before.log <= started.log && (forall k | |before.log| <= k < |started.log| :: !started.log[k].Complete?)
  }

  /** After the program ended in e, the download is queued again and pumped. */
  lemma Reawakened(c: Client, e: Engine, r: Record, m: Metadata, endings: seq<Ending>) returns (started: Engine)
    requires LeftOver(c, e, r, m)
    ensures StartedOver(started, e, r, m)
    ensures var queued := Step(c, Ended(e), Enqueue(r));
      && AfterPump(c, queued, endings) == Closed(RunOne(c, started, 0), endings) && ActivateUpTo(c, queued, 1) == started
      && started.log[started.active[0].since].kept == Kept(queued, NewPlan(r, m, MAX_SEGMENTS))
  {
    hide Inspected, NewPlan, RestoredPlan, Genuine, SameHeader, Closed, RunOne, AfterPump, Kept, Saved, StagedPath;
    var queued := Step(c, Ended(e), Enqueue(r));
    QueuedAlone(c, e, r);
    LeftOverRestores(c, e, r, m);
    PumpOfOne(c, queued, endings, r, m);
    var asked := queued.(pending := [], calls := queued.calls + 1, log := queued.log + [Described(r, Some(m))]);
    started := Started(asked, r, m);
    StartedAlone(asked, r, m);
    KeptAlike(asked, queued, NewPlan(r, m, MAX_SEGMENTS));
  }

  lemma KeptAlike(e: Engine, f: Engine, blank: Plan)
    requires f.checkpoints == e.checkpoints && f.over == e.over && f.names == e.names
    ensures Kept(e, blank) == Kept(f, blank)
  {
    hide RestoredPlan;
  }

  lemma QueuedAlone(c: Client, e: Engine, r: Record)
    requires r.id != [] && r.url != [] && StagedPath(r.name, r.id) !in e.files
    ensures var queued := Step(c, Ended(e), Enqueue(r));
      && queued == e.(pending := [r], active := [], paused := {}, cancelled := {}, completed := [], failed := [], bases := map[],
                      names := map[r.id := r.name], files := e.files[StagedPath(r.name, r.id) := []])
      && StagedFile(queued, r.id) == []
  {
    hide StagedPath;
  }

  // The program ends while a finished download is committed.

  /** From a checkpoint with nothing left to do, over a file of its own that is made new: the download is reported
      complete over an empty file. */
  lemma LeftOverCompletesEmpty(c: Client, e: Engine, r: Record, m: Metadata, endings: seq<Ending>) returns (k: nat)
    requires LeftOver(c, e, r, m) && r.id in e.checkpoints && AllFinished(e.checkpoints[r.id].segments)
    ensures var log := AfterPump(c, Step(c, Ended(e), Enqueue(r)), endings).log;
      && |e.log| <= k < |log| && log[k].Complete? && log[k].plan.id == r.id && log[k].staged == [] && !BegunRight(log, k)
  {
    hide AfterPump, NewPlan, Closed, RunOne, LeftOver, Genuine, AllFinished, BegunRight, StartedOver, CanQueue, Ended, Kept;
    var started := Reawakened(c, e, r, m, endings);
    StartedLog(started, e, r, m);
    OneStarted(started, e, r, m);
    LeftOverGenuine(c, e, r, m);
    var last := LastCompletes(c, started, e, r, m, endings);
    var log := Closed(RunOne(c, started, 0), endings).log;
    k := |log| - 1;
    OtherFileIsWrong(log, k, 0);
  }

  lemma StartedLog(started: Engine, before: Engine, r: Record, m: Metadata)
    requires StartedOver(started, before, r, m)
    ensures before.log <= started.log && forall k | |before.log| <= k < |started.log| :: !started.log[k].Complete?
  {
    hide NewPlan, StagedPath;
  }

  lemma LeftOverGenuine(c: Client, e: Engine, r: Record, m: Metadata)
    requires LeftOver(c, e, r, m)
    ensures r.id in e.checkpoints && Genuine(e.checkpoints[r.id])
  {
    hide Genuine, SameHeader, Inspected;
  }

  lemma ThreeMore(c: Client, e: Engine, ending: Call, r: Record, endings: seq<Ending>)
    ensures Steps(c, e, [ending, Enqueue(r), Pump(endings)]) == AfterPump(c, Step(c, Step(c, e, ending), Enqueue(r)), endings)
  {
    hide Step;
    var a, b, d := ending, Enqueue(r), Call.Pump(endings);
    assert [a, b, d][1..] == [b, d] && [b, d][1..] == [d] && [d][1..] == [];
    assert Steps(c, Step(c, e, a), [b, d]) == Steps(c, Step(c, Step(c, e, a), b), [d]);
    assert Steps(c, Step(c, Step(c, e, a), b), [d]) == Step(c, Step(c, Step(c, e, a), b), d);
    PumpIsStep(c, Step(c, Step(c, e, a), b), endings);
  }

  /** A genuine checkpoint with nothing left to do: its first segment is nonempty and counted as done. */
  lemma AllDone(s: Checkpoint)
    requires Genuine(s) && AllFinished(s.segments)
    ensures |s.segments| > 0 && s.segments[0].done > 0 && FirstUnfinished(s.segments) == |s.segments|
  {
    TilesNonempty(s.segments, s.total);
    SegmentInside(PlanOf(s), 0);
    assert forall i | 0 <= i < |s.segments| :: s.segments[i] in s.segments;
  }

  lemma LastCompletes(c: Client, started: Engine, before: Engine, r: Record, m: Metadata, endings: seq<Ending>) returns (last: Event)
    requires StartedOver(started, before, r, m)
    requires r.id in before.checkpoints && Genuine(before.checkpoints[r.id]) && AllFinished(before.checkpoints[r.id].segments)
    ensures var log := Closed(RunOne(c, started, 0), endings).log; |log| == |started.log| + 2 && started.log <= log && log[|started.log| + 1] == last
    ensures last.Complete? && last.plan.id == r.id && last.staged == [] && last.basis.found == []
    ensures |last.basis.plan.segments| > 0 && last.basis.plan.segments[0].done > 0
  {
    hide Genuine, StagedPath, Saved, NewPlan;
    AllDone(before.checkpoints[r.id]);
    var a := started.active[0];
    var over := a.(finished := true);
    var ran := Noted(started, 0, over);
    assert RunOne(c, started, 0) == ran;
    NewPlanNames(r, m);
    Reported(ran, endings);
    assert StagedFile(ran, r.id) == [];
    hide Closed;
    last := CompleteNow(ran, over);
    assert Closed(ran, endings).log == started.log + [Progress(a.plan), last];
  }

  /** The checkpoint of an active download says what its plan says. */
  ghost predicate UpToDate(e: Engine) {
    forall a | a in e.active :: a.record.id in e.checkpoints && e.checkpoints[a.record.id] == CheckpointOf(a.plan)
  }

  lemma ActivateOneUpToDate(c: Client, e: Engine)
    requires Sound(e) && UpToDate(e) && e.pending != []
    ensures UpToDate(ActivateOne(c, e))
  {
    hide Started, NewPlan, Sound, Inspected;
    var r, rest := e.pending[0], e.(pending := e.pending[1..]);
    var m := Inspected(c.inspect(e.calls, r.url, r.referrer));
    FrontTaken(e);
    if m.Some? {
      StartedUpToDate(rest.(calls := e.calls + 1, log := e.log + [Described(r, m)]), r, m.value);
    }
  }

  lemma StartedUpToDate(e: Engine, r: Record, m: Metadata)
    requires UpToDate(e) && !IsActive(e, r.id) && r.id != []
    ensures UpToDate(Started(e, r, m))
  {
    hide RestoredPlan, NewPlan, Kept, StagedFile;
    RestoredId(e.checkpoints, r, m);
    InactiveElsewhere(e, r.id);
  }

  lemma {:induction false} ActivationUpToDate(c: Client, e: Engine, scans: nat)
    requires Sound(e) && UpToDate(e)
    ensures UpToDate(ActivateUpTo(c, e, scans))
    decreases scans
  {
    hide Sound, UpToDate, ActivateOne;
    if |e.active| < MAX_ACTIVE && e.pending != [] && scans > 0 {
      ActivateOneUpToDate(c, e);
      ActivateOneKeeps(c, e);
      ActivationUpToDate(c, ActivateOne(c, e), scans - 1);
    }
  }

  lemma NotedUpToDate(e: Engine, i: nat, a: Active)
    requires Sound(e) && UpToDate(e) && i < |e.active| && a.record == e.active[i].record && a.plan.id == a.record.id && a.record.id != []
    ensures UpToDate(Noted(e, i, a))
  {
    hide Sound, CheckpointOf, HomeOf;
    SoundIds(e);
    var f := Noted(e, i, a);
    forall x | x in f.active
      ensures x.record.id in f.checkpoints && f.checkpoints[x.record.id] == CheckpointOf(x.plan)
    {
      var j :| 0 <= j < |f.active| && f.active[j] == x;
      assert e.active[j] in e.active;
    }
  }

  lemma RunOneUpToDate(c: Client, e: Engine, i: nat)
    requires Sound(e) && UpToDate(e) && i < |e.active|
    ensures UpToDate(RunOne(c, e, i))
  {
    hide Sound, AfterStreaming, ResultAt, AfterResult, Noted, CheckpointOf;
    if !Skipped(e, i) {
      var a := e.active[i];
      var k := FirstUnfinished(a.plan.segments);
      OneSound(e, i);
      ActiveUnderway(a);
      if k == |a.plan.segments| {
        NotedUpToDate(e, i, a.(finished := true));
      } else {
        StreamedActive(c, e, i, k);
        SoundFrame(e, AfterStreaming(c, e, i, k));
        ResultShape(a, k, ResultAt(c, e, i, k));
        NotedUpToDate(AfterStreaming(c, e, i, k), i, AfterResult(a, k, ResultAt(c, e, i, k)));
      }
    }
  }

  lemma {:induction false} RunUpToDate(c: Client, e: Engine, n: nat)
    requires Sound(e) && UpToDate(e) && n <= |e.active|
    ensures UpToDate(RunUpTo(c, e, n))
  {
    hide Sound, UpToDate, RunOne;
    if n > 0 {
      RunUpToDate(c, e, n - 1);
      RunKeeps(c, e, n - 1);
      RunOneUpToDate(c, RunUpTo(c, e, n - 1), n - 1);
    }
  }

  /** A report forgets the checkpoint of its own download at most. */
  lemma ReportKeepsCheckpoint(e: Engine, a: Active, ending: Ending, id: Text)
    requires id in e.checkpoints && (!a.finished || a.record.id != id)
    ensures id in ReportOne(e, a, ending).checkpoints && ReportOne(e, a, ending).checkpoints[id] == e.checkpoints[id]
  {
    hide Off, Rebased, StagedAt, StagedPath, CompleteNow;
  }

  lemma {:induction false} ReportsKeepCheckpoint(e: Engine, endings: seq<Ending>, n: nat, i: nat)
    requires Sound(e) && n <= |e.active| && i < |e.active| && (i >= n || !e.active[i].finished) && e.active[i].record.id in e.checkpoints
    ensures var id, f := e.active[i].record.id, ReportUpTo(e, endings, n);
      id in f.checkpoints && f.checkpoints[id] == e.checkpoints[id]
  {
    hide Sound, ReportOne, EndingAt;
    if n > 0 {
      ReportsKeepCheckpoint(e, endings, n - 1, i);
      SoundIds(e);
      ReportKeepsCheckpoint(ReportUpTo(e, endings, n - 1), e.active[n - 1], EndingAt(endings, n - 1), e.active[i].record.id);
    }
  }

  lemma ClosedUpToDate(e: Engine, endings: seq<Ending>)
    requires Sound(e) && UpToDate(e)
    ensures UpToDate(Closed(e, endings))
  {
    hide Sound, ReportUpTo, Settled, CheckpointOf;
    var reported := ReportUpTo(e, endings, |e.active|);
    SettledAre(reported.cancelled, reported.active);
    forall a | a in Closed(e, endings).active
      ensures a.record.id in reported.checkpoints && reported.checkpoints[a.record.id] == CheckpointOf(a.plan)
    {
      var i :| 0 <= i < |e.active| && e.active[i] == a;
      ReportsKeepCheckpoint(e, endings, |e.active|, i);
    }
  }

  lemma StepUpToDate(c: Client, e: Engine, call: Call)
    requires Sound(e) && UpToDate(e)
    ensures UpToDate(Step(c, e, call))
  {
    hide Sound, AfterPump, Interrupted, ReportsDone, WithoutRecord, WithoutActive, CanQueue, IsPending, CheckpointOf, Off, StagedPath;
    match call
    case Pump(endings) => PumpUpToDate(c, e, endings);
    case Cancel(id, _) => WithoutActiveIs(e.active, id);
    case Restart(r) => WithoutActiveIs(e.active, r.id);
    case _ =>
  }

  lemma WorkUpToDate(c: Client, e: Engine)
    requires Sound(e) && UpToDate(e)
    ensures UpToDate(Worked(c, e)) && Sound(Worked(c, e))
  {
    hide Sound, UpToDate, ActivateUpTo, RunUpTo;
    var activated := ActivateUpTo(c, e, |e.pending|);
    WorkKeeps(c, e);
    ActivationUpToDate(c, e, |e.pending|);
    ActivationKeeps(c, e, |e.pending|);
    RunUpToDate(c, activated, |activated.active|);
  }

  lemma PumpUpToDate(c: Client, e: Engine, endings: seq<Ending>)
    requires Sound(e) && UpToDate(e)
    ensures UpToDate(AfterPump(c, e, endings))
  {
    hide Sound, UpToDate, Worked, Closed;
    WorkUpToDate(c, e);
    ClosedUpToDate(Worked(c, e), endings);
  }

  lemma {:induction false} RunIsUpToDate(c: Client, calls: seq<Call>)
    ensures UpToDate(Run(c, calls))
  {
    hide Step, Sound, Resting, UpToDate;
    if calls == [] {
      NothingUpToDate();
    } else {
      RunIsUpToDate(c, calls[..|calls| - 1]);
      RunIsSound(c, calls[..|calls| - 1]);
      StepUpToDate(c, Run(c, calls[..|calls| - 1]), calls[|calls| - 1]);
    }
  }

  lemma NothingUpToDate()
    ensures UpToDate(Empty())
  {
  }

  /** The state of a pump's last report before its callback, and after a callback that came as far as moving the file. */
  ghost predicate MovedAway(c: Client, e: Engine, endings: seq<Ending>, r: Record) {
    var worked, n := Worked(c, e), |endings|;
    && 0 < n <= |worked.active| && endings[n - 1] == Ending(Renamed, false)
    && worked.active[n - 1].finished && worked.active[n - 1].record.id == r.id
    && r.id in worked.names && worked.names[r.id] == r.name
  }

  /** Then the staged file is gone and the full checkpoint is still there. */
  lemma MovedLeaves(c: Client, e: Engine, endings: seq<Ending>, r: Record)
    requires Sound(e) && UpToDate(e) && MovedAway(c, e, endings, r)
    ensures var f, p := ReportsDone(c, e, endings), Worked(c, e).active[|endings| - 1].plan;
      && StagedPath(r.name, r.id) !in f.files
      && r.id in f.checkpoints && f.checkpoints[r.id] == CheckpointOf(p) && Genuine(f.checkpoints[r.id]) && AllFinished(p.segments)
  {
    hide Sound, Worked, ReportUpTo, ReportOne, CheckpointOf, Genuine, AllFinished, StagedPath;
    var worked, n := Worked(c, e), |endings|;
    var before, a := ReportUpTo(worked, endings, n - 1), worked.active[n - 1];
    WorkUpToDate(c, e);
    assert a in worked.active;
    ReportsKeepCheckpoint(worked, endings, n - 1, n - 1);
    ReportFrame(worked, endings, n - 1);
    ReportsDoneLast(c, e, endings);
    SoundPlans(worked, n - 1);
    RenamedLeaves(before, a, r);
    ReportsDoneKeep(c, e, endings);
    CheckpointsGenuine(ReportsDone(c, e, endings));
  }

  lemma ReportsDoneLast(c: Client, e: Engine, endings: seq<Ending>)
    requires 0 < |endings| <= |Worked(c, e).active|
    ensures var worked, n := Worked(c, e), |endings|;
      ReportsDone(c, e, endings) == ReportOne(ReportUpTo(worked, endings, n - 1), worked.active[n - 1], endings[n - 1])
  {
    hide ReportOne, Worked;
  }

  lemma SoundPlans(e: Engine, i: nat)
    requires Sound(e) && i < |e.active| && e.active[i].finished
    ensures AllFinished(e.active[i].plan.segments) && !e.active[i].failed
  {
    hide Genuine, DistinctIds, Underway, Budget, AllFinished;
    assert ActiveSound(e.active[i]);
  }

  /** A finished download's report that moves its file and goes no further. */
  lemma RenamedLeaves(e: Engine, a: Active, r: Record)
    requires a.finished && a.record.id == r.id && r.id in e.names && e.names[r.id] == r.name && r.id in e.checkpoints
    ensures var f := ReportOne(e, a, Ending(Renamed, false));
      StagedPath(r.name, r.id) !in f.files && r.id in f.checkpoints && f.checkpoints[r.id] == e.checkpoints[r.id]
  {
    hide Off, Rebased, StagedAt, StagedPath, CompleteNow;
    StagedElsewhere(r.name, r.id);
  }

  /** So in every run: if the program ends while a finished download is committed, after its file is moved and before its
      checkpoint is erased, and the download is queued again under its name, and the server still describes the same
      resource, then it is reported complete from the checkpoint alone, over an empty file. */
  lemma CommitCrashCompletesEmpty(c: Client, calls: seq<Call>, endings: seq<Ending>, r: Record, m: Metadata, more: seq<Ending>)
    requires var e := Run(c, calls);
      && MovedAway(c, e, endings, r) && r.id != [] && r.url != []
      && Inspected(c.inspect(ReportsDone(c, e, endings).calls, r.url, r.referrer)) == Some(m) && m.total > 0
      && SameHeader(NewPlan(r, m, MAX_SEGMENTS), CheckpointOf(Worked(c, e).active[|endings| - 1].plan))
    ensures var before, log := Run(c, calls + [CrashInReports(endings)]).log, Run(c, calls + [CrashInReports(endings), Enqueue(r), Pump(more)]).log;
      exists k | |before| <= k < |log| :: log[k].Complete? && log[k].plan.id == r.id && log[k].staged == [] && !BegunRight(log, k)
  {
    hide Run, Steps, AfterPump, Sound, Resting, UpToDate, MovedAway, NewPlan, SameHeader, Inspected, CheckpointOf, Genuine, AllFinished, BegunRight, StagedPath, ReportsDone, Worked, LeftOver, Ended, CanQueue;
    var e, f := Run(c, calls), ReportsDone(c, Run(c, calls), endings);
    MovedOver(c, calls, endings, r, m);
    var k := LeftOverCompletesEmpty(c, f, r, m, more);
    RunInTwo(c, calls, [CrashInReports(endings), Enqueue(r), Pump(more)]);
    ThreeMore(c, e, CrashInReports(endings), r, more);
    OneMoreCrash(c, calls, endings);
  }

  lemma OneMoreCrash(c: Client, calls: seq<Call>, endings: seq<Ending>)
    ensures Run(c, calls + [CrashInReports(endings)]) == Ended(ReportsDone(c, Run(c, calls), endings))
    ensures Run(c, calls + [CrashInReports(endings)]).log == ReportsDone(c, Run(c, calls), endings).log
    ensures Step(c, Run(c, calls), CrashInReports(endings)) == Ended(ReportsDone(c, Run(c, calls), endings))
  {
    hide ReportsDone;
    assert (calls + [CrashInReports(endings)])[..|calls|] == calls;
  }

  /** What such an end leaves behind. */
  lemma MovedOver(c: Client, calls: seq<Call>, endings: seq<Ending>, r: Record, m: Metadata)
    requires var e := Run(c, calls);
      && MovedAway(c, e, endings, r) && r.id != [] && r.url != []
      && Inspected(c.inspect(ReportsDone(c, e, endings).calls, r.url, r.referrer)) == Some(m) && m.total > 0
      && SameHeader(NewPlan(r, m, MAX_SEGMENTS), CheckpointOf(Worked(c, e).active[|endings| - 1].plan))
    ensures var f := ReportsDone(c, Run(c, calls), endings);
      LeftOver(c, f, r, m) && r.id in f.checkpoints && AllFinished(f.checkpoints[r.id].segments)
  {
    hide Run, Sound, Resting, UpToDate, NewPlan, SameHeader, Inspected, CheckpointOf, Genuine, AllFinished, StagedPath, ReportsDone, Worked;
    RunIsSound(c, calls);
    RunIsUpToDate(c, calls);
    MovedLeaves(c, Run(c, calls), endings, r);
    SavedSegments(Worked(c, Run(c, calls)).active[|endings| - 1].plan);
  }

  lemma SavedSegments(p: Plan)
    ensures CheckpointOf(p).segments == p.segments
  {
  }

  // A download's id comes up again under another name.

  /** A server with two bytes behind every URL, both ones, which always answers and always delivers. */
  function TwoOnes(): Client {
    Client((n: nat, url: Text, referrer: Text) => Some(Head(Some(2), true, None, None)),
           (n: nat, r: TransportRequest) => Stream([Ones(r.end as int + 1 - r.begin as int - r.resume as int)], 1, 0, true, false))
  }

  function Ones(n: int): (ones: seq<byte>)
    ensures |ones| == if n < 0 then 0 else n
  {
    seq(if n < 0 then 0 else n, i => 1)
  }

  function TwoBytes(): Origin {
    v => [1, 1]
  }

  lemma TwoOnesIsHonest()
    ensures HonestClient(TwoOnes(), TwoBytes())
  {
    forall n: nat, r: TransportRequest
      ensures HonestStream(TwoBytes()(VersionAsked(r)), r, TwoOnes().stream(n, r))
    {
      var chunks := TwoOnes().stream(n, r).chunks;
      assert chunks[..|chunks| - 1] == [];
      assert Flatten(chunks) == Ones(r.end as int + 1 - r.begin as int - r.resume as int);
    }
  }

  const TWO := Metadata(2, true, None, None)

  const LOW := Segment(0, 0, 0, 0, 0, false)
  const HIGH := Segment(1, 1, 1, 0, 0, false)

  lemma TwoLayout()
    ensures Layout(2, 2) == [LOW, HIGH]
  {
    hide Start;
    StartBounds(2, 2, 0);
    StartBounds(2, 2, 1);
    assert Planned(2, 2, 0) == LOW;
    assert Planned(2, 2, 1) == HIGH;
  }

  lemma TwoSegments(r: Record)
    requires r.segmentLimit == 16
    ensures NewPlan(r, TWO, MAX_SEGMENTS) == Plan(r.id, r.url, r.referrer, TWO, [LOW, HIGH], 0)
  {
    hide Layout;
    assert SegmentCount(r, TWO, MAX_SEGMENTS) == 2;
    TwoLayout();
  }

  lemma TotalOfTwo(segments: seq<Segment>)
    requires |segments| == 2
    ensures TotalDone(segments) == segments[0].done + segments[1].done
  {
    NothingBelow(segments);
    OneMoreDone(segments, 0);
    OneMoreDone(segments, 1);
    assert segments[..2] == segments;
  }

  /** A reply of one byte, which the client calls complete or cut off. */
  function OneByte(value: byte, whole: bool): Stream {
    Stream([[value]], 1, 0, whole, !whole)
  }

  /** What such a reply for the only byte of a segment does. */
  lemma OneByteArrives(file: seq<Cell>, r: TransportRequest, value: byte, whole: bool)
    requires r.begin == r.end && r.end < 2 && r.resume == 0
    ensures Delivered(file, VersionAsked(r), Base(r), OneByte(value, whole)) == WriteAt(file, r.begin, [Cell(value, Some(VersionAsked(r)))])
    ensures ResultOf(true, OneByte(value, whole)) == TransferResult(whole, !whole, 1)
  {
    hide WriteAt;
    var s := OneByte(value, whole);
    assert s.chunks[..1] == [[value]] && s.chunks[..0] == [];
    assert Flatten([[value]]) == Flatten([]) + [value];
    DeliveredIsOneWrite(file, VersionAsked(r), Base(r), s);
    assert Payload(s) == [value];
    assert Tagged(VersionAsked(r), [value]) == [Cell(value, Some(VersionAsked(r)))];
  }

  lemma TwoOnesSends(n: nat, r: TransportRequest)
    requires r.begin == r.end && r.resume == 0
    ensures TwoOnes().stream(n, r) == OneByte(1, true)
  {
    assert Ones(1) == [1];
  }

  /** The progress in the middle: the first byte fetched, the second not. */
  function Half(r: Record): Checkpoint {
    Checkpoint(r.id, r.url, r.referrer, 2, 1, None, None, [LOW.(done := 1, finished := true), HIGH])
  }

  lemma HalfIsGenuine(r: Record)
    requires r.segmentLimit == 16
    ensures Genuine(Half(r))
  {
    hide Layout, TotalDone;
    var p := PlanOf(Half(r));
    TwoLayout();
    assert SameLayout(p.segments, Layout(p.metadata.total, 2));
    TotalOfTwo(p.segments);
  }

  /** The transfer of a segment of one byte, when it is the first unfinished one. */
  lemma OneByteRun(c: Client, e: Engine, i: nat, k: nat, value: byte, whole: bool)
    requires i < |e.active| && !Skipped(e, i)
    requires var a := e.active[i];
      && a.plan.id == a.record.id && a.record.id != [] && k == FirstUnfinished(a.plan.segments) < |a.plan.segments|
      && a.plan.segments[k].begin == a.plan.segments[k].end < 2 && a.plan.segments[k].done == 0
      && Writable(e.files, e.names, a.record.id) && c.stream(e.calls, RequestOf(a, k)) == OneByte(value, whole)
    ensures var a := e.active[i];
      var s := a.plan.segments[k].(done := 1, finished := true);
      var plan := WithSegment(a.plan, k, s);
      var v := Version(a.record.url, a.plan.metadata.etag, a.plan.metadata.lastModified);
      var place := HomeOf(e, a.record.id);
      RunOne(c, e, i) == e.(
        active := e.active[i := a.(plan := plan, spent := a.spent + 1, finished := AllFinished(plan.segments))],
        files := e.files[place := WriteAt(e.files[place], s.begin, [Cell(value, Some(v))])],
        checkpoints := e.checkpoints[a.record.id := CheckpointOf(plan)], over := e.over[a.record.id := NameOf(e, a.record.id)],
        calls := e.calls + 1, log := e.log + [Transferred(RequestOf(a, k)), Progress(plan)])
  {
    hide WriteAt, Delivered, ResultOf, TotalDone, AllFinished, StagedPath, OneByte;
    OneByteArrives(e.files[HomeOf(e, e.active[i].record.id)], RequestOf(e.active[i], k), value, whole);
  }

  /** The first session: one pump fetches the first of the two bytes. */
  lemma FirstSession(a: Record, endings: seq<Ending>)
    requires a.id != [] && a.url != [] && a.segmentLimit == 16
    ensures var e := AfterPump(TwoOnes(), Step(TwoOnes(), Empty(), Enqueue(a)), endings);
      && e.checkpoints == map[a.id := Half(a)] && e.files.Keys == {StagedPath(a.name, a.id)}
      && a.id in e.over && e.over[a.id] == a.name && e.log == Worked(TwoOnes(), Step(TwoOnes(), Empty(), Enqueue(a))).log
      && (forall k | 0 <= k < |e.log| :: !e.log[k].Complete?)
    ensures var ran := Worked(TwoOnes(), Step(TwoOnes(), Empty(), Enqueue(a))); |ran.active| == 1 && !ran.active[0].finished && !ran.active[0].failed
  {
    hide TwoOnes, Closed, StagedPath, Step, Worked, Half;
    FirstWork(a);
    Unreported(Worked(TwoOnes(), Step(TwoOnes(), Empty(), Enqueue(a))), endings);
  }

  lemma FirstWork(a: Record)
    requires a.id != [] && a.url != [] && a.segmentLimit == 16
    ensures var e := Worked(TwoOnes(), Step(TwoOnes(), Empty(), Enqueue(a)));
      && e.checkpoints == map[a.id := Half(a)] && e.files.Keys == {StagedPath(a.name, a.id)}
      && a.id in e.over && e.over[a.id] == a.name && (forall k | 0 <= k < |e.log| :: !e.log[k].Complete?)
      && |e.active| == 1 && !e.active[0].finished && !e.active[0].failed
  {
    hide TwoOnes, WriteAt, RunOne, Kept, WithSegment, RestoredPlan, NewPlan, Closed, Inspected, AllFinished, AfterPump, StagedPath, RequestOf, OneByte;
    var c := TwoOnes();
    var queued := Step(c, Empty(), Enqueue(a));
    Answers(queued.calls, a);
    PumpOfOne(c, queued, [], a, TWO);
    var asked := queued.(pending := [], calls := queued.calls + 1, log := queued.log + [Described(a, Some(TWO))]);
    StartedAlone(asked, a, TWO);
    NothingRestored(a);
    var started := Started(asked, a, TWO);
    var x := started.active[0];
    assert FirstUnfinished(x.plan.segments) == 0;
    RequestsAre(x, 0);
    TwoOnesSends(started.calls, RequestOf(x, 0));
    OneByteRun(c, started, 0, 0, 1, true);
    HalfDone(a);
    WorkOfOne(c, queued, started);
  }

  lemma RequestsAre(a: Active, k: nat)
    requires k < |a.plan.segments|
    ensures var r, s := RequestOf(a, k), a.plan.segments[k];
      && r.begin == s.begin && r.end == s.end && r.resume == s.done && r.url == a.record.url && r.id == a.record.id
      && r.etag == a.plan.metadata.etag && r.lastModified == a.plan.metadata.lastModified
  {
  }

  lemma WorkOfOne(c: Client, e: Engine, started: Engine)
    requires |e.pending| == 1 && ActivateUpTo(c, e, 1) == started && |started.active| == 1
    ensures Worked(c, e) == RunOne(c, started, 0)
  {
    hide RunOne, ActivateUpTo;
    assert RunUpTo(c, started, 0) == started;
  }

  lemma NothingRestored(a: Record)
    requires a.segmentLimit == 16
    ensures RestoredPlan(map[], NewPlan(a, TWO, MAX_SEGMENTS)) == Plan(a.id, a.url, a.referrer, TWO, [LOW, HIGH], 0)
  {
    TwoSegments(a);
  }

  /** A pump that ends nothing leaves everything as its transfers left it. */
  lemma Unreported(e: Engine, endings: seq<Ending>)
    requires |e.active| == 1 && !e.active[0].finished && !e.active[0].failed
    ensures Closed(e, endings) == e.(active := Closed(e, endings).active)
  {
    assert ReportUpTo(e, endings, 0) == e;
    assert ReportUpTo(e, endings, 1) == ReportOne(e, e.active[0], EndingAt(endings, 0));
  }

  lemma Answers(n: nat, r: Record)
    ensures Inspected(TwoOnes().inspect(n, r.url, r.referrer)) == Some(TWO)
  {
  }

  lemma HalfDone(r: Record)
    ensures var p := WithSegment(Plan(r.id, r.url, r.referrer, TWO, [LOW, HIGH], 0), 0, LOW.(done := 1, finished := true));
      CheckpointOf(p) == Half(r) && !AllFinished(p.segments)
  {
    var p := WithSegment(Plan(r.id, r.url, r.referrer, TWO, [LOW, HIGH], 0), 0, LOW.(done := 1, finished := true));
    assert p.segments == [LOW.(done := 1, finished := true), HIGH];
    TotalOfTwo(p.segments);
    assert HIGH in p.segments;
  }

  lemma NamesApartPaths(a: Text, b: Text, id: Text)
    requires a != b
    ensures StagedPath(a, id) != StagedPath(b, id)
  {
    assert |StagedPath(a, id)| - |StagedPath(b, id)| == |a| - |b|;
    assert StagedPath(a, id)[..|a|] == a && StagedPath(b, id)[..|b|] == b;
  }

  /** A finished download in a file of two bytes, of which only the second was fetched. */
  ghost predicate HalfZeros(ran: Engine, b: Record) {
    && |ran.active| == 1 && ran.active[0].finished && !ran.active[0].failed && ran.active[0].record == b && ran.active[0].plan.id == b.id
    && b.id in ran.names && ran.names[b.id] == b.name && HomeOf(ran, b.id) in ran.files
    && ran.active[0].plan.metadata.total == 2 && |StagedFile(ran, b.id)| == 2 && Contents(StagedFile(ran, b.id)) == [0, 1]
  }

  /** The second session: the same id and URL under another name. The byte counted as done is a zero in the new file,
      the other is fetched, and the download is about to be reported complete, with the planned length. */
  lemma SecondSession(e: Engine, a: Record, b: Record) returns (k: nat)
    requires a.id != [] && a.url != [] && a.segmentLimit == 16 && b == a.(name := b.name) && b.name != a.name
    requires e.checkpoints == map[a.id := Half(a)] && e.files.Keys == {StagedPath(a.name, a.id)}
    ensures var ran := Worked(TwoOnes(), Step(TwoOnes(), Ended(e), Enqueue(b)));
      HalfZeros(ran, b) && e.log <= ran.log && k == |ran.log| && (forall i | |e.log| <= i < k :: !ran.log[i].Complete?)
    ensures forall endings :: var log := AfterPump(TwoOnes(), Step(TwoOnes(), Ended(e), Enqueue(b)), endings).log;
      k < |log| && CompleteWrong(log, k, b)
  {
    hide TwoOnes, HalfZeros, Worked, Ended, CompleteWrong, AfterPump, CanQueue;
    var queued := Step(TwoOnes(), Ended(e), Enqueue(b));
    var ran := SecondWorks(e, a, b);
    k := |ran.log|;
    forall endings: seq<Ending>
      ensures k < |AfterPump(TwoOnes(), queued, endings).log| && CompleteWrong(AfterPump(TwoOnes(), queued, endings).log, k, b)
    {
      PumpIsClosed(TwoOnes(), queued, endings);
      ReportedWrong(ran, b, endings);
    }
  }

  /** A completion of a download with the planned length and the wrong bytes. */
  ghost predicate CompleteWrong(log: seq<Event>, k: nat, b: Record) {
    && k < |log| && log[k].Complete? && log[k].plan.id == b.id && |log[k].staged| == log[k].plan.metadata.total
    && Contents(log[k].staged) == [0, 1] && !BegunRight(log, k) && !ReportedRight(TwoBytes(), log[k])
  }

  lemma ReportedWrong(ran: Engine, b: Record, endings: seq<Ending>)
    requires HalfZeros(ran, b) && BasisOf(ran, ran.active[0]).found == []
    requires var p := BasisOf(ran, ran.active[0]).plan; |p.segments| > 0 && p.segments[0].done > 0
    ensures |ran.log| < |Closed(ran, endings).log| && CompleteWrong(Closed(ran, endings).log, |ran.log|, b)
  {
    hide Closed, BegunRight, StagedPath, BasisOf, StagedFile, Source;
    Reported(ran, endings);
    var log, k := Closed(ran, endings).log, |ran.log|;
    OtherFileIsWrong(log, k, 0);
    TwoBytesAre(log[k].plan);
    assert [0, 1][..2] == [0, 1] && [0, 1][0] != [1, 1][0];
  }

  lemma TwoBytesAre(p: Plan)
    ensures Source(TwoBytes(), p) == [1, 1]
  {
  }

  /** The transfers of the second session. */
  lemma SecondWorks(e: Engine, a: Record, b: Record) returns (ran: Engine)
    requires a.id != [] && a.url != [] && a.segmentLimit == 16 && b == a.(name := b.name) && b.name != a.name
    requires e.checkpoints == map[a.id := Half(a)] && e.files.Keys == {StagedPath(a.name, a.id)}
    ensures ran == Worked(TwoOnes(), Step(TwoOnes(), Ended(e), Enqueue(b))) && HalfZeros(ran, b)
    ensures BasisOf(ran, ran.active[0]).found == []
    ensures var p := BasisOf(ran, ran.active[0]).plan; |p.segments| > 0 && p.segments[0].done > 0
    ensures e.log <= ran.log && (forall i | |e.log| <= i < |ran.log| :: !ran.log[i].Complete?)
  {
    hide TwoOnes, RunOne, Genuine, Inspected, NewPlan, AfterPump, Closed, StagedPath, Worked, Ended, CanQueue, Kept, StartedOver, HalfZeros, BasisOf;
    var c := TwoOnes();
    Answers(e.calls, b);
    HalfIsGenuine(a);
    TwoSegments(b);
    NamesApartPaths(a.name, b.name, a.id);
    assert LeftOver(c, e, b, TWO);
    var queued := Step(c, Ended(e), Enqueue(b));
    var started := Reawakened(c, e, b, TWO, []);
    OneStarted(started, e, b, TWO);
    SecondFetches(started, e, b);
    ran := RunOne(c, started, 0);
    StartedLog(started, e, b, TWO);
    QueuedAlone(c, e, b);
    WorkOfOne(c, queued, started);
  }

  lemma OneStarted(started: Engine, before: Engine, r: Record, m: Metadata)
    requires StartedOver(started, before, r, m)
    ensures |started.active| == 1
  {
    hide NewPlan, StagedPath;
  }

  lemma SecondFetches(started: Engine, e: Engine, b: Record)
    requires b.id != [] && b.segmentLimit == 16 && b.id in e.checkpoints && e.checkpoints[b.id] == Half(b) && StartedOver(started, e, b, TWO)
    ensures var ran := RunOne(TwoOnes(), started, 0);
      && HalfZeros(ran, b) && BasisOf(ran, ran.active[0]).found == []
      && (var p := BasisOf(ran, ran.active[0]).plan; |p.segments| > 0 && p.segments[0].done > 0)
      && started.log <= ran.log && forall i | |started.log| <= i < |ran.log| :: !ran.log[i].Complete?
  {
    hide TwoOnes, RunOne, WithSegment, NewPlan, AllFinished, WriteAt, StagedPath, RequestOf, OneByte;
    TwoSegments(b);
    var x := started.active[0];
    assert FirstUnfinished(x.plan.segments) == 1;
    RequestsAre(x, 1);
    TwoOnesSends(started.calls, RequestOf(x, 1));
    OneByteRun(TwoOnes(), started, 0, 1, 1, true);
    var ran := RunOne(TwoOnes(), started, 0);
    BothDone(x.plan);
    assert HomeOf(started, b.id) == HomeOf(ran, b.id) == StagedPath(b.name, b.id);
    assert StagedFile(ran, b.id) == WriteAt([], 1, [Cell(1, Some(Version(b.url, None, None)))]);
    SecondByteOnly(Version(b.url, None, None));
  }

  lemma PumpIsClosed(c: Client, e: Engine, endings: seq<Ending>)
    ensures AfterPump(c, e, endings) == Closed(Worked(c, e), endings)
  {
  }

  lemma BothDone(p: Plan)
    requires p.segments == [LOW.(done := 1, finished := true), HIGH]
    ensures var q := WithSegment(p, 1, HIGH.(done := 1, finished := true));
      AllFinished(q.segments) && q.metadata == p.metadata && q.id == p.id && q.url == p.url
  {
    var q := WithSegment(p, 1, HIGH.(done := 1, finished := true));
    assert q.segments == [LOW.(done := 1, finished := true), HIGH.(done := 1, finished := true)];
  }

  lemma Reported(e: Engine, endings: seq<Ending>)
    requires |e.active| == 1 && e.active[0].finished && !e.active[0].failed
    ensures Closed(e, endings).log == e.log + [CompleteNow(e, e.active[0])]
  {
    hide CompleteNow, Finish;
    var a := e.active[0];
    assert ReportUpTo(e, endings, 0) == e;
    assert ReportUpTo(e, endings, 1) == ReportOne(e, a, EndingAt(endings, 0));
    FinishKeepsLists(NotedComplete(e, a), a.record.id, EndingAt(endings, 0));
  }

  /** A file of which only the second byte was ever fetched. */
  lemma SecondByteOnly(v: Version)
    ensures var file := WriteAt([], 1, [Cell(1, Some(v))]); |file| == 2 && Contents(file) == [0, 1]
  {
    var file := WriteAt([], 1, [Cell(1, Some(v))]);
    assert Gaps(1) == [Cell(0, None)];
    assert file == [Cell(0, None), Cell(1, Some(v))];
  }

  /** So over an honest server, and whatever the id and the URL: a download is half done under one name and its record is
      lost, as a private one's is, when the program ends; the id comes up again for the same URL under another name;
      and the download is reported complete over a file in which the first half is zeros. */
  lemma RenamedCompletesWrong(a: Record, b: Record, endings: seq<Ending>)
    requires a.id != [] && a.url != [] && a.segmentLimit == 16 && b == a.(name := b.name) && b.name != a.name
    ensures HonestClient(TwoOnes(), TwoBytes())
    ensures var log := Run(TwoOnes(), [Enqueue(a), Pump([]), Crash(0, 0, false), Enqueue(b), Pump(endings)]).log;
      exists k :: CompleteWrong(log, k, b)
  {
    hide TwoOnes, HonestClient, CompleteWrong, AfterPump, Worked, HalfZeros;
    TwoOnesIsHonest();
    var c := TwoOnes();
    var e := AfterPump(c, Step(c, Empty(), Enqueue(a)), []);
    FirstSession(a, []);
    FiveSteps(c, a, b, endings);
    var k := SecondSession(e, a, b);
  }

  /** An activation over another file need do no harm: if the program ends again before anything is completed, every
      completion there is is right although the progress was not restored over the file it was saved over. */
  lemma RenamedUnharmed(a: Record, b: Record)
    requires a.id != [] && a.url != [] && a.segmentLimit == 16 && b == a.(name := b.name) && b.name != a.name
    ensures var log := Run(TwoOnes(), [Enqueue(a), Pump([]), Crash(0, 0, false), Enqueue(b), Crash(1, 0, false)]).log;
      !AllKept(log) && forall k | 0 <= k < |log| :: !log[k].Complete?
  {
    hide TwoOnes, AfterPump, NewPlan, Genuine, RestoredPlan, Inspected, Kept, StagedPath, Worked;
    var c := TwoOnes();
    var e := AfterPump(c, Step(c, Empty(), Enqueue(a)), []);
    FirstSession(a, []);
    Answers(e.calls, b);
    HalfIsGenuine(a);
    TwoSegments(b);
    NamesApartPaths(a.name, b.name, a.id);
    assert LeftOver(c, e, b, TWO);
    var queued := Step(c, Ended(e), Enqueue(b));
    var started := Reawakened(c, e, b, TWO, []);
    QueuedAlone(c, e, b);
    LeftOverRestores(c, e, b, TWO);
    NotKept(queued, NewPlan(b, TWO, MAX_SEGMENTS), a.name);
    FourthThenCrash(c, a, b, started);
    assert !started.log[started.active[0].since].kept;
  }

  lemma NotKept(e: Engine, blank: Plan, name: Text)
    requires RestoredPlan(e.checkpoints, blank) != blank && blank.id in e.over && e.over[blank.id] == name && NameOf(e, blank.id) != name
    ensures !Kept(e, blank)
  {
    hide RestoredPlan;
  }

  lemma FourthThenCrash(c: Client, a: Record, b: Record, started: Engine)
    requires var queued := Step(c, Ended(AfterPump(c, Step(c, Empty(), Enqueue(a)), [])), Enqueue(b));
      |queued.pending| == 1 && ActivateUpTo(c, queued, 1) == started
    ensures Run(c, [Enqueue(a), Pump([]), Crash(0, 0, false), Enqueue(b), Crash(1, 0, false)]) == Ended(started)
  {
    hide AfterPump, Ended, ActivateUpTo;
    var four := [Enqueue(a), Pump([]), Crash(0, 0, false), Enqueue(b)];
    var queued := Step(c, Ended(AfterPump(c, Step(c, Empty(), Enqueue(a)), [])), Enqueue(b));
    FourSteps(c, a, b);
    assert four + [Crash(1, 0, false)] == [Enqueue(a), Pump([]), Crash(0, 0, false), Enqueue(b), Crash(1, 0, false)];
    assert (four + [Crash(1, 0, false)])[..|four|] == four;
    assert RunUpTo(c, started, 0) == started;
  }

  lemma FourSteps(c: Client, a: Record, b: Record)
    ensures Run(c, [Enqueue(a), Pump([]), Crash(0, 0, false), Enqueue(b)]) == Step(c, Ended(AfterPump(c, Step(c, Empty(), Enqueue(a)), [])), Enqueue(b))
  {
    hide Step, AfterPump, Ended;
    var calls: seq<Call> := [Enqueue(a), Pump([]), Crash(0, 0, false), Enqueue(b)];
    assert calls[..3] == [Enqueue(a), Pump([]), Crash(0, 0, false)] && calls[..3][..2] == [Enqueue(a), Pump([])];
    assert calls[..3][..2][..1] == [Enqueue(a)] && [Enqueue(a)][..0] == [];
    assert Run(c, [Enqueue(a)]) == Step(c, Empty(), Enqueue(a));
    assert Run(c, [Enqueue(a), Pump([])]) == Step(c, Step(c, Empty(), Enqueue(a)), Pump([]));
    PumpIsStep(c, Step(c, Empty(), Enqueue(a)), []);
    NothingInterrupted(c, AfterPump(c, Step(c, Empty(), Enqueue(a)), []));
    assert Run(c, calls[..3]) == Ended(AfterPump(c, Step(c, Empty(), Enqueue(a)), []));
  }

  lemma FiveSteps(c: Client, a: Record, b: Record, endings: seq<Ending>)
    ensures var e := AfterPump(c, Step(c, Empty(), Enqueue(a)), []);
      Run(c, [Enqueue(a), Pump([]), Crash(0, 0, false), Enqueue(b), Pump(endings)]) == AfterPump(c, Step(c, Ended(e), Enqueue(b)), endings)
  {
    hide Step, AfterPump;
    var four: seq<Call> := [Enqueue(a), Pump([]), Crash(0, 0, false), Enqueue(b)];
    FourSteps(c, a, b);
    assert four + [Pump(endings)] == [Enqueue(a), Pump([]), Crash(0, 0, false), Enqueue(b), Pump(endings)];
    assert (four + [Call.Pump(endings)])[..|four|] == four;
    PumpIsStep(c, Run(c, four), endings);
  }

  lemma NothingInterrupted(c: Client, e: Engine)
    ensures Step(c, e, Crash(0, 0, false)) == Ended(e)
  {
    assert ActivateUpTo(c, e, 0) == e;
    assert RunUpTo(c, e, 0) == e;
  }
}
