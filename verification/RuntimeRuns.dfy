/** Every run of the download runtime is, for the scheduler, one of its runs: what is proved of those holds for it. */
module RuntimeRuns {
  import opened Bytes
  import opened Wrappers
  import opened DownloadPlan
  import opened DownloadCheckpoint
  import opened StagedPaths
  import opened HttpTransport
  import opened TransferScheduler
  import opened SchedulerInvariants
  import opened SchedulerTheorems
  import opened PumpEvents
  import opened Provenance
  import opened KeptFiles
  import opened NamedFiles
  import opened DownloadQueue
  import opened Wardveil
  import opened DownloadRuntime
  import opened ReleaseGate

  /** Calls about the queue's numbers, which open the files of these records and no others. */
  ghost predicate CallsOf(calls: seq<Call>, rs: set<Record>) {
    forall call | call in calls :: CallNumbered(call) && OpensOf(call, rs)
  }

  /** Some such calls lead from one state of the scheduler to the other. */
  ghost predicate Reaches(c: Client, rs: set<Record>, e: Engine, f: Engine) {
    exists more: seq<Call> :: CallsOf(more, rs) && Steps(c, e, more) == f
  }

  lemma ReachesSelf(c: Client, rs: set<Record>, e: Engine)
    ensures Reaches(c, rs, e, e)
  {
    assert CallsOf([], rs) && Steps(c, e, []) == e;
  }

  lemma ReachesStep(c: Client, rs: set<Record>, e: Engine, call: Call)
    requires CallNumbered(call) && OpensOf(call, rs)
    ensures Reaches(c, rs, e, Step(c, e, call))
  {
    hide Step, CallNumbered;
    assert [call][1..] == [];
    assert Steps(c, Step(c, e, call), []) == Step(c, e, call);
    assert CallsOf([call], rs) && Steps(c, e, [call]) == Step(c, e, call);
  }

  lemma {:induction false} StepsInTwo(c: Client, e: Engine, a: seq<Call>, b: seq<Call>)
    ensures Steps(c, e, a + b) == Steps(c, Steps(c, e, a), b)
    decreases |a|
  {
    hide Step;
    if a == [] {
      assert a + b == b;
    } else {
      assert (a + b)[1..] == a[1..] + b;
      StepsInTwo(c, Step(c, e, a[0]), a[1..], b);
    }
  }

  lemma ReachesChain(c: Client, rs: set<Record>, e: Engine, f: Engine, g: Engine)
    requires Reaches(c, rs, e, f) && Reaches(c, rs, f, g)
    ensures Reaches(c, rs, e, g)
  {
    hide Steps, CallNumbered;
    var a: seq<Call> :| CallsOf(a, rs) && Steps(c, e, a) == f;
    var b: seq<Call> :| CallsOf(b, rs) && Steps(c, f, b) == g;
    StepsInTwo(c, e, a, b);
    assert CallsOf(a + b, rs) && Steps(c, e, a + b) == g;
  }

  lemma {:induction false} StepsGrow(c: Client, e: Engine, calls: seq<Call>)
    ensures e.log <= Steps(c, e, calls).log
    decreases |calls|
  {
    hide Step;
    if calls != [] {
      StepGrows(c, e, calls[0]);
      StepsGrow(c, Step(c, e, calls[0]), calls[1..]);
    }
  }

  lemma ReachedGrows(c: Client, rs: set<Record>, e: Engine, f: Engine)
    requires Reaches(c, rs, e, f)
    ensures e.log <= f.log
  {
    hide Steps, CallsOf;
    var more: seq<Call> :| CallsOf(more, rs) && Steps(c, e, more) == f;
    StepsGrow(c, e, more);
  }

  // The parts of a call.

  lemma {:induction false} ResumedReaches(c: Client, rs: set<Record>, e: Engine, ids: set<Text>)
    ensures Reaches(c, rs, e, e.(paused := e.paused - ids))
    decreases ids
  {
    hide Reaches;
    if ids == {} {
      assert e.paused - ids == e.paused;
      ReachesSelf(c, rs, e);
    } else {
      var id :| id in ids;
      var f := Step(c, e, Call.Resume(id));
      ReachesStep(c, rs, e, Call.Resume(id));
      ResumedReaches(c, rs, f, ids - {id});
      assert f.paused - (ids - {id}) == e.paused - ids;
      ReachesChain(c, rs, e, f, e.(paused := e.paused - ids));
    }
  }

  lemma LetGoReaches(c: Client, rs: set<Record>, r: Runtime, now: int)
    ensures Reaches(c, rs, r.engine, ReleasedDue(r, now).engine)
  {
    hide Due, Reaches;
    ResumedReaches(c, rs, r.engine, Due(r, now));
  }

  // The callbacks of completions, as the scheduler sees them.

  lemma VerifiedEngine(scanner: Scanner, r: Runtime, p: Plan, since: nat) returns (ending: Ending)
    ensures Verified(scanner, r, p, since).engine == Finish(r.engine, p.id, ending)
  {
    hide VerdictOf, WithState, AfterCommit;
    if p.id !in r.engine.names {
      ending := Ending(NotMade, false);
      NothingMade(r.engine, p.id);
    } else {
      ending := VerdictOf(scanner, Verifies(r, p.id), p, since).ending;
    }
  }

  lemma NothingMade(e: Engine, id: Text)
    ensures Finish(e, id, Ending(NotMade, false)) == e
  {
  }

  lemma ReportedEngine(scanner: Scanner, r: Runtime, a: Active) returns (ending: Ending)
    requires a.plan.id == a.record.id
    ensures ReportedBack(scanner, r, a).engine == ReportOne(r.engine, a, ending)
  {
    hide Verified, Finish, WithState, NotedComplete;
    ending := VerifiedEngine(scanner, r.(engine := NotedComplete(r.engine, a)), a.plan, a.since);
  }

  /** Reports depend on the endings of their own turns only. */
  lemma {:induction false} MoreEndings(e: Engine, endings: seq<Ending>, more: seq<Ending>, n: nat)
    requires n <= |endings| && n <= |e.active|
    ensures ReportUpTo(e, endings + more, n) == ReportUpTo(e, endings, n)
  {
    hide ReportOne;
    if n > 0 {
      MoreEndings(e, endings, more, n - 1);
      assert EndingAt(endings + more, n - 1) == EndingAt(endings, n - 1);
    }
  }

  lemma {:induction false} CalledBackEngine(scanner: Scanner, r: Runtime, n: nat) returns (endings: seq<Ending>)
    requires Sound(r.engine) && n <= |r.engine.active|
    ensures |endings| == n && CalledBack(scanner, r, r.engine.active[..n]).engine == ReportUpTo(r.engine, endings, n)
  {
    hide Sound, ReportedBack, ReportOne;
    if n == 0 {
      endings := [];
    } else {
      var before := CalledBackEngine(scanner, r, n - 1);
      var actives := r.engine.active[..n];
      assert actives[..n - 1] == r.engine.active[..n - 1];
      SoundNames(r.engine, n - 1);
      var ending := ReportedEngine(scanner, CalledBack(scanner, r, actives[..n - 1]), r.engine.active[n - 1]);
      endings := before + [ending];
      MoreEndings(r.engine, before, [ending], n - 1);
      assert EndingAt(endings, n - 1) == ending;
    }
  }

  lemma HandledEngine(r: Runtime, events: seq<Event>)
    ensures HandledAll(r, events).engine == r.engine && HandledAll(r, events).releases == r.releases
  {
    hide HandledAll, Beside, StateOf, Silence;
    HandledOutcome(r, events, []);
  }

  lemma WorkEngine(c: Client, r: Runtime)
    ensures AfterWork(c, r).engine == Worked(c, r.engine) && AfterWork(c, r).releases == r.releases
  {
    hide Worked, HandledAll, Told;
    HandledEngine(r.(engine := Worked(c, r.engine)), Told(r.engine, Worked(c, r.engine)));
  }

  // A pump.

  lemma PumpEngine(c: Client, scanner: Scanner, r: Runtime, now: int) returns (endings: seq<Ending>)
    requires Gated(r)
    ensures AfterRuntimePump(c, scanner, r, now).engine == AfterPump(c, ReleasedDue(r, now).engine, endings)
  {
    hide Gated, ReleasedDue, AfterWork, CalledBack, Sound, Worked, Swept, ReportUpTo;
    var released := ReleasedDue(r, now);
    LetGo(r, now);
    GatedSound(released);
    WorkKeeps(c, released.engine);
    WorkEngine(c, released);
    var worked := AfterWork(c, released);
    endings := CalledBackEngine(scanner, worked, |worked.engine.active|);
    assert worked.engine.active[..|worked.engine.active|] == worked.engine.active;
  }

  lemma PumpReaches(c: Client, rs: set<Record>, scanner: Scanner, r: Runtime, now: int)
    requires Gated(r)
    ensures Reaches(c, rs, r.engine, AfterRuntimePump(c, scanner, r, now).engine)
  {
    hide Gated, Reaches, AfterRuntimePump, AfterPump, ReleasedDue;
    LetGoReaches(c, rs, r, now);
    var endings := PumpEngine(c, scanner, r, now);
    ReachesStep(c, rs, ReleasedDue(r, now).engine, Call.Pump(endings));
    PumpIsStep(c, ReleasedDue(r, now).engine, endings);
    ReachesChain(c, rs, r.engine, ReleasedDue(r, now).engine, AfterRuntimePump(c, scanner, r, now).engine);
  }

  // The records of the queue.

  /** Every record of the queue is one of these, under one of the queue's numbers. */
  ghost predicate ItemsFrom(items: seq<Item>, rs: set<Record>) {
    forall i | 0 <= i < |items| :: RecordOf(items[i]) in rs && Numbered(items[i].id) && items[i].segmentLimit == 16
  }

  lemma StatesFrom(items: seq<Item>, after: seq<Item>, rs: set<Record>)
    requires ItemsFrom(items, rs) && OnlyStates(items, after)
    ensures ItemsFrom(after, rs)
  {
    hide Numbered, FileName;
    forall i | 0 <= i < |after|
      ensures RecordOf(after[i]) in rs && Numbered(after[i].id) && after[i].segmentLimit == 16
    {
      assert RecordOf(after[i]) == RecordOf(items[i]);
    }
  }

  lemma FoundFrom(items: seq<Item>, rs: set<Record>, id: Text)
    requires ItemsFrom(items, rs) && HasItem(items, id)
    ensures RecordOf(items[FindItem(items, id)]) in rs && Numbered(id)
  {
    hide Numbered, FileName;
  }

  // The other calls.

  lemma BegunReaches(c: Client, rs: set<Record>, r: Runtime, item: Item, prepares: bool, now: int)
    requires Gated(r) && New(r, item) && RecordOf(item) in rs
    ensures Reaches(c, rs, r.engine, Begun(r, item, prepares, now).engine)
  {
    hide Gated, Reaches, WithState, Future, FileName, Listed, Numbered, StagedPath, Off;
    var e, record := r.engine, RecordOf(item);
    ReachesSelf(c, rs, e);
    NewCanQueue(r, item);
    SameCanQueue(e, item.id, record.name, record);
    ReachesStep(c, rs, e, Call.Enqueue(record));
    var queued := Step(c, e, Call.Enqueue(record));
    ReachesStep(c, rs, queued, Call.Pause(item.id));
    ReachesChain(c, rs, e, queued, Step(c, queued, Call.Pause(item.id)));
  }

  lemma NewCanQueue(r: Runtime, item: Item)
    requires Gated(r) && New(r, item)
    ensures CanQueue(r.engine, RecordOf(item))
  {
    hide Gated, FileName, Numbered;
    Unlisted(r, item.id);
  }

  lemma PausedReaches(c: Client, rs: set<Record>, r: Runtime, id: Text)
    ensures Reaches(c, rs, r.engine, AfterRuntimePause(r, id).engine) && Reaches(c, rs, r.engine, AfterRuntimeResume(r, id).engine)
  {
    hide Reaches, WithState, Known;
    ReachesSelf(c, rs, r.engine);
    ReachesStep(c, rs, r.engine, Call.Pause(id));
    ReachesStep(c, rs, r.engine, Call.Resume(id));
  }

  lemma CancelledReaches(c: Client, rs: set<Record>, r: Runtime, id: Text, discard: bool)
    requires ItemsFrom(r.items, rs)
    ensures Reaches(c, rs, r.engine, AfterRuntimeCancel(r, id, discard).engine)
  {
    hide Reaches, WithState, StateOf, Withdrawn, Numbered, ItemsFrom;
    ReachesSelf(c, rs, r.engine);
    if Known(r, id, {Queued, Running, Paused, Failed, Held, Blocked}) {
      KnownHas(r, id);
      FoundFrom(r.items, rs, id);
      ReachesStep(c, rs, r.engine, Call.Cancel(id, if discard && id in r.engine.names then Some(r.engine.names[id]) else None));
    }
  }

  lemma KnownHas(r: Runtime, id: Text)
    requires StateOf(r, id).Some?
    ensures HasItem(r.items, id)
  {
  }

  lemma RestartedReaches(c: Client, rs: set<Record>, r: Runtime, id: Text, prepared: (bool, bool))
    requires ItemsFrom(r.items, rs)
    ensures Reaches(c, rs, r.engine, AfterRuntimeRestart(r, id, prepared).engine)
  {
    hide Reaches, WithState, StateOf, Withdrawn, HasFile, CanQueue, FindItem, FileName, Numbered, ItemsFrom;
    ReachesSelf(c, rs, r.engine);
    if Known(r, id, {Completed, Failed, Cancelled, Held, Blocked}) {
      KnownHas(r, id);
      KnownRecord(r, id);
      FoundFrom(r.items, rs, id);
      var record := RecordOf(r.items[FindItem(r.items, id)]);
      ReachesStep(c, rs, r.engine, Call.Cancel(id, None));
      ReachesStep(c, rs, r.engine, Call.Cancel(id, Some(record.name)));
      ReachesStep(c, rs, r.engine, Call.Restart(record));
    }
  }

  /** A record read back: its file prepared, and perhaps queued, and perhaps paused. */
  lemma ReopenedReaches(c: Client, rs: set<Record>, r: Runtime, item: Item, prepares: Text -> bool, now: int)
    requires Gated(r) && RecordOf(RestoredItem(item)) in rs && Numbered(item.id)
    ensures Reaches(c, rs, r.engine, ReopenedOne(r, item, prepares, now).engine)
  {
    hide Gated, Reaches, WithState, Future, FileName, Listed, HasItem, Numbered, StagedPath;
    var e, record := r.engine, RecordOf(RestoredItem(item));
    ReachesSelf(c, rs, e);
    if CanRestore(r.items, item) {
      Unlisted(r, item.id);
      ReachesStep(c, rs, e, Call.Prepare(record));
      PrepareIs(c, e, record);
      SameCanQueue(e, item.id, record.name, record);
      ReachesStep(c, rs, e, Call.Enqueue(record));
      var queued := Step(c, e, Call.Enqueue(record));
      ReachesStep(c, rs, queued, Call.Pause(item.id));
      ReachesChain(c, rs, e, queued, Step(c, queued, Call.Pause(item.id)));
    }
  }

  lemma PrepareIs(c: Client, e: Engine, record: Record)
    requires !Listed(e, record.id)
    ensures Step(c, e, Call.Prepare(record)) == Prepared(e, record.id, record.name)
  {
    hide StagedPath;
  }

  lemma RestoredFrom(item: Item)
    requires item.segmentLimit == 16
    ensures RecordOf(RestoredItem(item)) == RecordOf(item) && RestoredItem(item).segmentLimit == 16 && RestoredItem(item).id == item.id
  {
    hide FileName;
  }

  lemma ReopenedFrom(r: Runtime, rs: set<Record>, item: Item, prepares: Text -> bool, now: int)
    requires ItemsFrom(r.items, rs) && RecordOf(item) in rs && Numbered(item.id) && item.segmentLimit == 16
    ensures ItemsFrom(ReopenedOne(r, item, prepares, now).items, rs)
  {
    hide ReopenedOne, Numbered, WithState, RestoredItem, RecordOf;
    ReopenedLooks(r, item, prepares, now);
    RestoredFrom(item);
    var added := r.items + [RestoredItem(item)];
    assert ItemsFrom(added, rs);
    DistinctKept(added, item.id, Failed);
    hide ItemsFrom, OnlyStates;
    StatesFrom(added, WithState(added, item.id, Failed), rs);
  }

  lemma {:induction false} ReopenedAllReaches(c: Client, rs: set<Record>, r: Runtime, items: seq<Item>, prepares: Text -> bool, now: int)
    requires Gated(r) && ItemsFrom(r.items, rs) && ItemsFrom(items, rs)
    ensures Reaches(c, rs, r.engine, ReopenedAll(r, items, prepares, now).engine) && Gated(ReopenedAll(r, items, prepares, now))
    ensures ItemsFrom(ReopenedAll(r, items, prepares, now).items, rs)
  {
    hide Gated, Reaches, ReopenedOne, ReadBack, RecordOf, Numbered;
    if items == [] {
      ReachesSelf(c, rs, r.engine);
    } else {
      var last := |items| - 1;
      var before := ReopenedAll(r, items[..last], prepares, now);
      assert ItemsFrom(items[..last], rs);
      ReopenedAllReaches(c, rs, r, items[..last], prepares, now);
      ReopenOneGates(before, items[last], prepares, now);
      RestoredFrom(items[last]);
      ReopenedReaches(c, rs, before, items[last], prepares, now);
      ReopenedFrom(before, rs, items[last], prepares, now);
      ReachesChain(c, rs, r.engine, before.engine, ReopenedAll(r, items, prepares, now).engine);
    }
  }

  // The end of the program.

  lemma EndReaches(c: Client, rs: set<Record>, e: Engine)
    ensures Reaches(c, rs, e, Ended(e))
  {
    hide Reaches;
    ReachesStep(c, rs, e, Crash(0, 0, false));
    assert ActivateUpTo(c, e, 0) == e && RunUpTo(c, e, 0) == e;
  }

  /** Some of the reports made, for the scheduler. */
  lemma ReportedAsFarEngine(c: Client, scanner: Scanner, r: Runtime, count: nat) returns (endings: seq<Ending>)
    requires Sound(r.engine)
    ensures |endings| == Min(count, |Worked(c, r.engine).active|)
    ensures ReportedAsFar(c, scanner, r, count).engine == ReportUpTo(Worked(c, r.engine), endings, |endings|)
  {
    hide Sound, AfterWork, CalledBack, Worked, ReportUpTo;
    WorkKeeps(c, r.engine);
    WorkEngine(c, r);
    endings := CalledBackEngine(scanner, AfterWork(c, r), Min(count, |Worked(c, r.engine).active|));
  }

  lemma ReportedAsFarReaches(c: Client, rs: set<Record>, scanner: Scanner, r: Runtime, count: nat)
    requires Sound(r.engine)
    ensures Reaches(c, rs, r.engine, Ended(ReportedAsFar(c, scanner, r, count).engine))
  {
    hide Sound, Reaches, ReportedAsFar, Worked, ReportUpTo, Ended;
    var endings := ReportedAsFarEngine(c, scanner, r, count);
    ReachesStep(c, rs, r.engine, CrashInReports(endings));
  }

  /** And the next one made in part. */
  lemma MidVerificationReaches(c: Client, rs: set<Record>, scanner: Scanner, r: Runtime, count: nat, steps: nat)
    requires Sound(r.engine) && count < |ReportedAsFar(c, scanner, r, count).engine.active|
    requires ReportedAsFar(c, scanner, r, count).engine.active[count].finished
    ensures var s := ReportedAsFar(c, scanner, r, count);
      Reaches(c, rs, r.engine, Ended(MidVerification(scanner, s, s.engine.active[count], steps).engine))
  {
    hide Sound, Reaches, ReportedAsFar, Worked, ReportUpTo, Ended, ReportOne, MidVerification;
    var s := ReportedAsFar(c, scanner, r, count);
    var endings := ReportedAsFarEngine(c, scanner, r, count);
    var worked, a := Worked(c, r.engine), s.engine.active[count];
    ReportFrame(worked, endings, |endings|);
    WorkKeeps(c, r.engine);
    SoundNames(worked, count);
    NotBoth(worked, count);
    var part := MidEngine(scanner, s, a, steps);
    MoreEndings(worked, endings, [part], count);
    NextReport(worked, endings + [part], count);
    ReachesStep(c, rs, r.engine, CrashInReports(endings + [part]));
  }

  lemma NextReport(e: Engine, endings: seq<Ending>, n: nat)
    requires n < |e.active| && n < |endings|
    ensures ReportUpTo(e, endings, n + 1) == ReportOne(ReportUpTo(e, endings, n), e.active[n], endings[n])
  {
    hide ReportOne;
  }

  lemma MidEngine(scanner: Scanner, r: Runtime, a: Active, steps: nat) returns (part: Ending)
    requires a.plan.id == a.record.id && a.finished && !a.failed
    ensures MidVerification(scanner, r, a, steps).engine == ReportOne(r.engine, a, part)
  {
    hide VerdictOf, WithState, AfterCommit, NotedComplete;
    var noted := r.(engine := NotedComplete(r.engine, a));
    if a.plan.id !in noted.engine.names {
      part := Ending(NotMade, false);
      NothingMade(noted.engine, a.plan.id);
    } else {
      part := PartOf(VerdictOf(scanner, Verifies(noted, a.plan.id), a.plan, a.since).ending, steps);
    }
  }

  lemma StoppedReaches(c: Client, rs: set<Record>, scanner: Scanner, r: Runtime, stop: Stop, now: int)
    requires Gated(r)
    ensures Reaches(c, rs, r.engine, Ended(StoppedAt(c, scanner, r, stop, now).engine))
  {
    hide Gated, Reaches, Told, HandledAll, ReleasedDue, ReportedAsFar, Sound, MidVerification, Ended, Interrupted;
    var released, s := ReleasedDue(r, now), StoppedAt(c, scanner, r, stop, now);
    LetGo(r, now);
    LetGoReaches(c, rs, r, now);
    GatedSound(released);
    EndReaches(c, rs, r.engine);
    match stop
    case Between =>
    case InPump(scans, runs, torn, told) =>
      var engine := Interrupted(c, released.engine, scans, runs, torn);
      var events := Told(released.engine, engine);
      ReachesStep(c, rs, released.engine, Crash(scans, runs, torn));
      HandledEngine(released.(engine := engine), events[..Min(told, |events|)]);
      ReachesChain(c, rs, r.engine, released.engine, Ended(s.engine));
    case InReports(count) =>
      ReportedAsFarReaches(c, rs, scanner, released, count);
      ReachesChain(c, rs, r.engine, released.engine, Ended(s.engine));
    case InReport(count, steps) =>
      ReportedAsFarReaches(c, rs, scanner, released, count);
      var back := ReportedAsFar(c, scanner, released, count);
      if count < |back.engine.active| && back.engine.active[count].finished {
        MidVerificationReaches(c, rs, scanner, released, count, steps);
      }
      ReachesChain(c, rs, r.engine, released.engine, Ended(s.engine));
  }

  /** The records of the downloads begun. */
  ghost function Asked(calls: seq<RuntimeCall>): set<Record> {
    set call | call in calls && call.Begin? :: RecordOf(call.item)
  }

  ghost predicate BeginsOf(call: RuntimeCall, rs: set<Record>) {
    call.Begin? ==> RecordOf(call.item) in rs
  }

  lemma BegunFrom(r: Runtime, rs: set<Record>, item: Item, prepares: bool, now: int)
    requires ItemsFrom(r.items, rs) && New(r, item) && RecordOf(item) in rs
    ensures ItemsFrom(Begun(r, item, prepares, now).items, rs)
  {
    hide Numbered, Future, WithState, CanQueue, HasItem, StagedPath, RecordOf, Off;
    var added := r.items + [item];
    assert ItemsFrom(added, rs);
    DistinctKept(added, item.id, Cancelled);
    hide ItemsFrom, OnlyStates;
    StatesFrom(added, WithState(added, item.id, Cancelled), rs);
  }

  lemma PausedFrom(r: Runtime, rs: set<Record>, id: Text, discard: bool, prepared: (bool, bool))
    requires ItemsFrom(r.items, rs)
    ensures ItemsFrom(AfterRuntimePause(r, id).items, rs) && ItemsFrom(AfterRuntimeResume(r, id).items, rs)
    ensures ItemsFrom(AfterRuntimeCancel(r, id, discard).items, rs) && ItemsFrom(AfterRuntimeRestart(r, id, prepared).items, rs)
  {
    hide ItemsFrom, OnlyStates, WithState, Known, Withdrawn, HasFile, CanQueue, FindItem, FileName;
    DistinctKept(r.items, id, Paused);
    DistinctKept(r.items, id, Queued);
    DistinctKept(r.items, id, Cancelled);
    StatesFrom(r.items, WithState(r.items, id, Paused), rs);
    StatesFrom(r.items, WithState(r.items, id, Queued), rs);
    StatesFrom(r.items, WithState(r.items, id, Cancelled), rs);
  }

  lemma PumpStates(c: Client, scanner: Scanner, r: Runtime, now: int)
    requires Gated(r)
    ensures OnlyStates(r.items, AfterRuntimePump(c, scanner, r, now).items)
  {
    hide Gated, ReleasedDue, AfterWork, CalledBack, Sound, Worked, Swept, OnlyStates, Orderly, StateOf, Listed, Beside, WellReported;
    var released := ReleasedDue(r, now);
    LetGo(r, now);
    WorkEffect(c, released, []);
    var worked := AfterWork(c, released);
    SoundReported(worked.engine);
    CalledBackOutcome(scanner, worked, worked.engine.active, []);
    BesideReleases(worked, CalledBack(scanner, worked, worked.engine.active));
    OnlyStatesChain(r.items, worked.items, CalledBack(scanner, worked, worked.engine.active).items);
  }

  lemma RuntimeStepReaches(c: Client, rs: set<Record>, scanner: Scanner, r: Runtime, call: RuntimeCall)
    requires Gated(r) && ItemsFrom(r.items, rs) && BeginsOf(call, rs)
    ensures Reaches(c, rs, r.engine, RuntimeStep(c, scanner, r, call).engine) && ItemsFrom(RuntimeStep(c, scanner, r, call).items, rs)
  {
    hide Gated, Reaches, AfterRuntimePump, Begun, AfterRuntimePause, AfterRuntimeResume, AfterRuntimeCancel, AfterRuntimeRestart, ReopenedAll, StoppedAt, OnDisk, Ended, ItemsFrom, New, RecordOf, OnlyStates, StateOf, Listed;
    ReachesSelf(c, rs, r.engine);
    match call
    case Begin(item, prepares, now) =>
      if New(r, item) {
        BegunReaches(c, rs, r, item, prepares, now);
        BegunFrom(r, rs, item, prepares, now);
      }
    case PauseDownload(id) => PausedReaches(c, rs, r, id); PausedFrom(r, rs, id, false, (false, false));
    case ResumeDownload(id) => PausedReaches(c, rs, r, id); PausedFrom(r, rs, id, false, (false, false));
    case CancelDownload(id, discard) => CancelledReaches(c, rs, r, id, discard); PausedFrom(r, rs, id, discard, (false, false));
    case RestartDownload(id, prepared) => RestartedReaches(c, rs, r, id, prepared); PausedFrom(r, rs, id, false, prepared);
    case PumpDownloads(now) =>
      PumpReaches(c, rs, scanner, r, now);
      PumpStates(c, scanner, r, now);
      StatesFrom(r.items, AfterRuntimePump(c, scanner, r, now).items, rs);
    case Reopen(stop, last, destinations, now) =>
      var s := StoppedAt(c, scanner, r, stop, last);
      StoppedReaches(c, rs, scanner, r, stop, last);
      StoppedGates(c, scanner, r, stop, last, []);
      ReopeningGated(s);
      StatesFrom(r.items, s.items, rs);
      NothingFrom(Reopening(s), rs);
      ReopenedAllReaches(c, rs, Reopening(s), s.items, destinations, now);
      ReachesChain(c, rs, r.engine, Reopening(s).engine, Reopened(s, destinations, now).engine);
  }

  lemma NothingFrom(r: Runtime, rs: set<Record>)
    requires r.items == []
    ensures ItemsFrom(r.items, rs)
  {
  }

  /** The scheduler's own calls behind a run of the runtime. */
  lemma {:induction false} OwnCalls(c: Client, rs: set<Record>, scanner: Scanner, calls: seq<RuntimeCall>) returns (own: seq<Call>)
    requires forall call | call in calls :: BeginsOf(call, rs)
    ensures Run(c, own) == RuntimeRun(c, scanner, calls).engine && CallsOf(own, rs) && ItemsFrom(RuntimeRun(c, scanner, calls).items, rs)
  {
    hide RuntimeStep, Gated, Step, BeginsOf, ItemsFrom, CallNumbered;
    if calls == [] {
      own := [];
      NothingFrom(FirstRuntime(), rs);
    } else {
      var before := RuntimeRun(c, scanner, calls[..|calls| - 1]);
      var some := OwnCalls(c, rs, scanner, calls[..|calls| - 1]);
      RunIsGated(c, scanner, calls[..|calls| - 1]);
      RuntimeStepReaches(c, rs, scanner, before, calls[|calls| - 1]);
      var more: seq<Call> :| CallsOf(more, rs) && Steps(c, before.engine, more) == RuntimeRun(c, scanner, calls).engine;
      RunInTwo(c, some, more);
      own := some + more;
    }
  }

  /** The scheduler of a runtime, after any run of it, is the scheduler after some run of its own, with the queue's numbers
      for ids, and files opened only for the downloads begun. */
  lemma RuntimeRunIsRun(c: Client, scanner: Scanner, calls: seq<RuntimeCall>)
    ensures exists own: seq<Call> :: Run(c, own) == RuntimeRun(c, scanner, calls).engine && NumberedCalls(own) && Opened(own) <= Asked(calls)
  {
    hide RuntimeRun, Run, CallNumbered, RecordOf, ItemsFrom;
    forall call | call in calls
      ensures BeginsOf(call, Asked(calls))
    {
    }
    var own := OwnCalls(c, Asked(calls), scanner, calls);
    assert NumberedCalls(own) && Opened(own) <= Asked(calls);
  }
}
