/** From the transfers through the gate: when what is released is the resource that was asked for. */
module ReleasedResource {
  import opened Bytes
  import opened Wrappers
  import opened DownloadPlan
  import opened DownloadCheckpoint
  import opened StagedPaths
  import opened HttpTransport
  import opened TransferScheduler
  import opened SchedulerInvariants
  import opened SchedulerTheorems
  import opened PumpEvents
  import opened Provenance
  import opened KeptFiles
  import opened NamedFiles
  import opened EndToEnd
  import opened DownloadQueue
  import opened Wardveil
  import opened DownloadRuntime
  import opened ReleaseGate
  import opened RuntimeRuns

  // Releases and the completions that led to them.

  /** A release is of the plan that this completion reported, and of bytes with the length and digest of its staged file. */
  ghost predicate FromCompletion(x: Release, ev: Event) {
    && ev.Complete? && ev.plan == x.plan && ev.since == x.since
    && |x.bytes| == |ev.staged| == ev.plan.metadata.total
    && DigestOf(x.bytes) == DigestOf(Contents(ev.staged))
  }

  ghost predicate Logged(log: seq<Event>, x: Release) {
    exists j | 0 <= j < |log| :: FromCompletion(x, log[j])
  }

  lemma CommitFrom(p: Plan, since: nat, path: Path, staged: seq<byte>, request: ScanRequest, d: Decision, x: Inspection, ev: Event)
    requires ev.Complete? && ev.plan == p && ev.since == since && staged == Contents(ev.staged) && |staged| == p.metadata.total
    ensures var v := CommitVerdict(p, since, path, staged, request, d, x);
      v.release.Some? ==> FromCompletion(v.release.value, ev) && v.release.value.path == path
  {
    hide DigestOf, Contents;
    SameLength(ev.staged);
  }

  lemma SameLength(file: seq<Cell>)
    ensures |Contents(file)| == |file|
  {
  }

  /** What a verification releases is what its completion was noted with. */
  lemma VerdictFrom(scanner: Scanner, r: Runtime, p: Plan, since: nat, ev: Event)
    requires ev.Complete? && ev.plan == p && ev.since == since && ev.staged == StagedFile(r.engine, p.id)
    ensures var v := VerdictOf(scanner, r, p, since);
      v.release.Some? ==> FromCompletion(v.release.value, ev) && v.release.value.path == NameOf(r.engine, p.id)
  {
    hide Evaluate, DigestOf, ResourceId, HasItem, FindItem, Contents, StagedFile, CommitVerdict, FromCompletion, HomeOf;
    var staged := Contents(StagedFile(r.engine, p.id));
    var x := scanner(r.scans, p.id, staged);
    if HasItem(r.items, p.id) && |staged| == p.metadata.total {
      var request := ScanRequestOf(r, p.id, staged);
      CommitFrom(p, since, NameOf(r.engine, p.id), staged, request, Evaluate(request, x.response, x.now), x, ev);
    }
  }

  // Every release comes from a completion in the log.

  ghost predicate AllLogged(r: Runtime) {
    forall k | 0 <= k < |r.releases| :: Logged(r.engine.log, r.releases[k])
  }

  lemma LoggedLater(log: seq<Event>, longer: seq<Event>, x: Release)
    requires Logged(log, x) && log <= longer
    ensures Logged(longer, x)
  {
    hide FromCompletion;
    var j :| 0 <= j < |log| && FromCompletion(x, log[j]);
    assert longer[j] == log[j];
  }

  lemma SameReleasesLogged(r: Runtime, s: Runtime)
    requires AllLogged(r) && s.releases == r.releases && r.engine.log <= s.engine.log
    ensures AllLogged(s)
  {
    hide Logged;
    forall k | 0 <= k < |s.releases|
      ensures Logged(s.engine.log, s.releases[k])
    {
      LoggedLater(r.engine.log, s.engine.log, s.releases[k]);
    }
  }

  /** One more release, of a completion noted last. */
  lemma OneMoreLogged(r: Runtime, s: Runtime, ev: Event)
    requires AllLogged(r) && s.engine.log == r.engine.log + [ev]
    requires s.releases == r.releases || (|s.releases| == |r.releases| + 1 && r.releases <= s.releases && FromCompletion(s.releases[|r.releases|], ev))
    ensures AllLogged(s)
  {
    hide FromCompletion;
    forall k | 0 <= k < |s.releases|
      ensures Logged(s.engine.log, s.releases[k])
    {
      if k < |r.releases| {
        LoggedLater(r.engine.log, s.engine.log, r.releases[k]);
      } else {
        assert s.engine.log[|r.engine.log|] == ev;
      }
    }
  }

  lemma NotedSame(e: Engine, a: Active)
    ensures var f := NotedComplete(e, a);
      f.log == e.log + [CompleteNow(e, a)] && StagedFile(f, a.record.id) == StagedFile(e, a.record.id) && f.names == e.names
  {
    hide CompleteNow, StagedPath;
  }

  lemma CompleteIs(e: Engine, a: Active)
    ensures CompleteNow(e, a).Complete? && CompleteNow(e, a).plan == a.plan && CompleteNow(e, a).since == a.since
    ensures CompleteNow(e, a).staged == StagedFile(e, a.record.id)
  {
  }

  /** A verification, whole or stopped on the way, has its release logged. */
  lemma NotingLogged(scanner: Scanner, r: Runtime, a: Active, ending: Ending)
    requires AllLogged(r) && a.plan.id == a.record.id
    ensures var begun := Verifies(r.(engine := NotedComplete(r.engine, a)), a.plan.id);
      AllLogged(Noting(begun, a.plan.id, ending, VerdictOf(scanner, begun, a.plan, a.since)))
  {
    hide VerdictOf, WithState, Finish, FromCompletion, Logged, NotedComplete, CompleteNow, StagedFile;
    var noted := r.(engine := NotedComplete(r.engine, a));
    var begun := Verifies(noted, a.plan.id);
    var v := VerdictOf(scanner, begun, a.plan, a.since);
    NotedSame(r.engine, a);
    CompleteIs(r.engine, a);
    VerdictFrom(scanner, begun, a.plan, a.since, CompleteNow(r.engine, a));
    FinishKeepsLists(begun.engine, a.plan.id, ending);
    hide AllLogged;
    OneMoreLogged(r, Noting(begun, a.plan.id, ending, v), CompleteNow(r.engine, a));
  }

  lemma NotedLogged(r: Runtime, a: Active)
    requires AllLogged(r)
    ensures AllLogged(r.(engine := NotedComplete(r.engine, a)))
  {
    hide AllLogged, CompleteNow;
    OneMoreLogged(r, r.(engine := NotedComplete(r.engine, a)), CompleteNow(r.engine, a));
  }

  lemma MarkedLogged(r: Runtime, id: Text, state: State)
    requires AllLogged(r)
    ensures AllLogged(Marked(r, id, state))
  {
    hide Logged, WithState;
  }

  lemma FailedLogged(r: Runtime, id: Text)
    requires AllLogged(r)
    ensures AllLogged(r.(engine := FailedId(r.engine, id)))
  {
    hide AllLogged;
    SameReleasesLogged(r, r.(engine := FailedId(r.engine, id)));
  }

  lemma ReportedLogged(scanner: Scanner, r: Runtime, a: Active)
    requires AllLogged(r) && a.plan.id == a.record.id
    ensures AllLogged(ReportedBack(scanner, r, a))
  {
    hide AllLogged, NotedComplete, VerdictOf, Noting, Verifies, Marked, FailedId;
    var noted := r.(engine := NotedComplete(r.engine, a));
    var begun := Verifies(noted, a.plan.id);
    var v := VerdictOf(scanner, begun, a.plan, a.since);
    NotedLogged(r, a);
    MarkedLogged(noted, a.plan.id, Failed);
    NotingLogged(scanner, r, a, v.ending);
    MarkedLogged(Noting(begun, a.plan.id, v.ending, v), a.plan.id, v.state);
    var told := if a.finished then Verified(scanner, noted, a.plan, a.since) else r;
    FailedLogged(told, a.record.id);
    MarkedLogged(told.(engine := FailedId(told.engine, a.record.id)), a.record.id, Failed);
  }

  lemma {:induction false} CalledBackLogged(scanner: Scanner, r: Runtime, actives: seq<Active>)
    requires AllLogged(r) && WellReported(actives)
    ensures AllLogged(CalledBack(scanner, r, actives))
  {
    hide AllLogged, ReportedBack;
    if actives != [] {
      CalledBackLogged(scanner, r, actives[..|actives| - 1]);
      ReportedLogged(scanner, CalledBack(scanner, r, actives[..|actives| - 1]), actives[|actives| - 1]);
    }
  }

  lemma WorkLogged(c: Client, r: Runtime)
    requires AllLogged(r) && Sound(r.engine)
    ensures AllLogged(AfterWork(c, r)) && Sound(AfterWork(c, r).engine) && WellReported(AfterWork(c, r).engine.active)
    ensures AfterWork(c, r).engine == Worked(c, r.engine)
  {
    hide AllLogged, AfterWork, Worked, Sound, WellReported;
    WorkEngine(c, r);
    WorkOpen(c, r.engine);
    WorkKeeps(c, r.engine);
    SoundReported(Worked(c, r.engine));
    SameReleasesLogged(r, AfterWork(c, r));
  }

  lemma PumpLogged(c: Client, scanner: Scanner, r: Runtime, now: int)
    requires Gated(r) && AllLogged(r)
    ensures AllLogged(AfterRuntimePump(c, scanner, r, now))
  {
    hide Gated, ReleasedDue, AfterWork, CalledBack, AllLogged, Sound, Swept, Worked, WellReported;
    var released := ReleasedDue(r, now);
    LetGo(r, now);
    LetGoLog(r, now);
    GatedSound(released);
    SameReleasesLogged(r, released);
    WorkLogged(c, released);
    var worked := AfterWork(c, released);
    CalledBackLogged(scanner, worked, worked.engine.active);
    var back := CalledBack(scanner, worked, worked.engine.active);
    SweptLog(back.engine);
    SameReleasesLogged(back, back.(engine := Swept(back.engine)));
  }

  lemma SweptLog(e: Engine)
    ensures Swept(e).log == e.log
  {
    hide Settled;
  }

  lemma LetGoLog(r: Runtime, now: int)
    ensures ReleasedDue(r, now).engine.log == r.engine.log && ReleasedDue(r, now).releases == r.releases
    ensures ReleasedDue(r, now).items == r.items
  {
    hide Due;
  }

  lemma ReportedAsFarLogged(c: Client, scanner: Scanner, r: Runtime, count: nat)
    requires Sound(r.engine) && AllLogged(r)
    ensures AllLogged(ReportedAsFar(c, scanner, r, count))
  {
    hide AfterWork, CalledBack, AllLogged, Sound, Worked, WellReported;
    WorkLogged(c, r);
    var worked := AfterWork(c, r);
    FewerReported(worked.engine.active, Min(count, |worked.engine.active|));
    CalledBackLogged(scanner, worked, worked.engine.active[..Min(count, |worked.engine.active|)]);
  }

  lemma MidVerificationLogged(scanner: Scanner, r: Runtime, a: Active, steps: nat)
    requires AllLogged(r) && a.plan.id == a.record.id
    ensures AllLogged(MidVerification(scanner, r, a, steps))
  {
    hide AllLogged, NotedComplete, VerdictOf, Noting, Verifies;
    NotedLogged(r, a);
    var begun := Verifies(r.(engine := NotedComplete(r.engine, a)), a.plan.id);
    NotingLogged(scanner, r, a, PartOf(VerdictOf(scanner, begun, a.plan, a.since).ending, steps));
  }

  lemma StoppedLogged(c: Client, scanner: Scanner, r: Runtime, stop: Stop, now: int)
    requires Gated(r) && AllLogged(r)
    ensures AllLogged(StoppedAt(c, scanner, r, stop, now))
  {
    hide Gated, ReleasedDue, HandledAll, Told, ReportedAsFar, AllLogged, Sound, Interrupted, MidVerification, Worked, StateOf, Listed, OnlyStates, OnDisk;
    var released := ReleasedDue(r, now);
    LetGo(r, now);
    LetGoLog(r, now);
    GatedSound(released);
    SameReleasesLogged(r, released);
    match stop
    case Between =>
    case InPump(scans, runs, torn, told) =>
      var engine := Interrupted(c, released.engine, scans, runs, torn);
      var events := Told(released.engine, engine);
      InterruptedTells(c, released.engine, scans, runs, torn);
      HandledEngine(released.(engine := engine), events[..Min(told, |events|)]);
      SameReleasesLogged(released, StoppedAt(c, scanner, r, stop, now));
    case InReports(count) => ReportedAsFarLogged(c, scanner, released, count);
    case InReport(count, steps) =>
      ReportedAsFarLogged(c, scanner, released, count);
      StoppedInReports(c, scanner, released, count, []);
      var s := ReportedAsFar(c, scanner, released, count);
      if count < |s.engine.active| && s.engine.active[count].finished {
        WorkKeeps(c, released.engine);
        SoundNames(Worked(c, released.engine), count);
        MidVerificationLogged(scanner, s, s.engine.active[count], steps);
      }
  }

  lemma RuntimeStepLogged(c: Client, rs: set<Record>, scanner: Scanner, r: Runtime, call: RuntimeCall)
    requires Gated(r) && AllLogged(r) && ItemsFrom(r.items, rs) && BeginsOf(call, rs)
    ensures AllLogged(RuntimeStep(c, scanner, r, call))
  {
    hide Gated, AllLogged, Reaches, AfterRuntimePump, Begun, AfterRuntimePause, AfterRuntimeResume, AfterRuntimeCancel, AfterRuntimeRestart, StoppedAt, ReopenedAll, OnDisk, ItemsFrom, New, RecordOf, OnlyStates, StateOf, Listed;
    var s := RuntimeStep(c, scanner, r, call);
    RuntimeStepReaches(c, rs, scanner, r, call);
    ReachedGrows(c, rs, r.engine, s.engine);
    match call
    case Begin(item, prepares, now) =>
      if New(r, item) {
        BeginGates(r, item, prepares, now);
      }
      SameReleasesLogged(r, s);
    case PumpDownloads(now) => PumpLogged(c, scanner, r, now);
    case Reopen(stop, last, destinations, now) => ReopenLogged(c, rs, scanner, r, stop, last, destinations, now);
    case PauseDownload(id) =>
      SameReleases(r, id, false, (false, false));
      SameReleasesLogged(r, s);
    case ResumeDownload(id) =>
      SameReleases(r, id, false, (false, false));
      SameReleasesLogged(r, s);
    case CancelDownload(id, discard) =>
      SameReleases(r, id, discard, (false, false));
      SameReleasesLogged(r, s);
    case RestartDownload(id, prepared) =>
      SameReleases(r, id, false, prepared);
      SameReleasesLogged(r, s);
  }

  lemma ReopenLogged(c: Client, rs: set<Record>, scanner: Scanner, r: Runtime, stop: Stop, last: int, destinations: Text -> bool, now: int)
    requires Gated(r) && AllLogged(r) && ItemsFrom(r.items, rs)
    ensures AllLogged(Reopened(StoppedAt(c, scanner, r, stop, last), destinations, now))
  {
    hide Gated, AllLogged, Reaches, StoppedAt, ReopenedAll, OnDisk, ItemsFrom, OnlyStates, StateOf, Listed;
    var stopped := StoppedAt(c, scanner, r, stop, last);
    var s := Reopened(stopped, destinations, now);
    StoppedLogged(c, scanner, r, stop, last);
    StoppedGates(c, scanner, r, stop, last, []);
    ReopeningGated(stopped);
    StatesFrom(r.items, stopped.items, rs);
    NothingFrom(Reopening(stopped), rs);
    StoppedOrderly(stopped);
    ReopenGates(Reopening(stopped), stopped.items, destinations, now, 0);
    ReopenedAllReaches(c, rs, Reopening(stopped), stopped.items, destinations, now);
    ReachedGrows(c, rs, Reopening(stopped).engine, s.engine);
    SameReleasesLogged(stopped, s);
  }

  lemma StoppedOrderly(r: Runtime)
    requires OnDisk(r)
    ensures Orderly(r.items)
  {
    hide Orderly, Proper, Genuine;
  }

  lemma {:induction false} RunLogs(c: Client, rs: set<Record>, scanner: Scanner, calls: seq<RuntimeCall>)
    requires forall call | call in calls :: BeginsOf(call, rs)
    ensures AllLogged(RuntimeRun(c, scanner, calls)) && ItemsFrom(RuntimeRun(c, scanner, calls).items, rs)
  {
    hide RuntimeStep, AllLogged, Gated, BeginsOf, ItemsFrom, Reaches;
    if calls == [] {
      NothingLogged();
      NothingFrom(FirstRuntime(), rs);
    } else {
      RunLogs(c, rs, scanner, calls[..|calls| - 1]);
      RunIsGated(c, scanner, calls[..|calls| - 1]);
      RuntimeStepLogged(c, rs, scanner, RuntimeRun(c, scanner, calls[..|calls| - 1]), calls[|calls| - 1]);
      RuntimeStepReaches(c, rs, scanner, RuntimeRun(c, scanner, calls[..|calls| - 1]), calls[|calls| - 1]);
    }
  }

  lemma AskedBegins(calls: seq<RuntimeCall>)
    ensures forall call | call in calls :: BeginsOf(call, Asked(calls))
  {
    hide RecordOf;
  }

  lemma RunIsLogged(c: Client, scanner: Scanner, calls: seq<RuntimeCall>)
    ensures AllLogged(RuntimeRun(c, scanner, calls))
  {
    hide RuntimeRun, AllLogged, BeginsOf, ItemsFrom, Asked;
    AskedBegins(calls);
    RunLogs(c, Asked(calls), scanner, calls);
  }

  lemma NothingLogged()
    ensures AllLogged(FirstRuntime())
  {
  }

  // Main results.

  /** The released bytes have the length and the digest of this version of the resource. */
  ghost predicate Faithful(o: Origin, x: Release) {
    |x.bytes| == |Source(o, x.plan)| && DigestOf(x.bytes) == DigestOf(Source(o, x.plan))
  }

  /** With a client that delivers right bytes, whatever the disk, the scanner and the user do, and wherever the program
      stops: every release is of a download as its server described it for the activation that fetched it, and if what it
      counted as done when it last came by its staged file had been fetched into that file, the released bytes have the
      length and the SHA-256 digest of the resource. */
  lemma ReleasedIsTheResource(c: Client, o: Origin, scanner: Scanner, calls: seq<RuntimeCall>, k: nat)
    requires HonestClient(c, o) && k < |RuntimeRun(c, scanner, calls).releases|
    ensures var r := RuntimeRun(c, scanner, calls);
      var x, log := r.releases[k], r.engine.log;
      && Proper(x)
      && (exists n: nat :: Inspected(c.inspect(n, x.plan.url, x.plan.referrer)) == Some(x.plan.metadata))
      && (exists j | 0 <= j < |log| :: FromCompletion(x, log[j]) && (BegunRight(log, j) ==> Faithful(o, x)))
  {
    hide HonestClient, RuntimeRun, Run, Proper, Inspected, FromCompletion, BegunRight, Faithful, Sound, Resting, ReleaseGate.Tracked, Orderly, HasRelease, Known, CallNumbered, Opened, Asked;
    var r := RuntimeRun(c, scanner, calls);
    var x, log := r.releases[k], r.engine.log;
    RunIsGated(c, scanner, calls);
    RunIsLogged(c, scanner, calls);
    RuntimeRunIsRun(c, scanner, calls);
    var own: seq<Call> :| Run(c, own) == r.engine && NumberedCalls(own) && Opened(own) <= Asked(calls);
    assert Logged(log, x);
    var j :| 0 <= j < |log| && FromCompletion(x, log[j]);
    CompletionIs(x, log[j]);
    CompleteIsAskedFor(c, o, own, j);
    if BegunRight(log, j) {
      CompleteIsTheResource(c, o, own, j);
      FaithfulFrom(o, x, log[j]);
    }
  }

  lemma CompletionIs(x: Release, ev: Event)
    requires FromCompletion(x, ev)
    ensures ev.Complete? && ev.plan == x.plan && |ev.staged| == ev.plan.metadata.total
  {
  }

  lemma FaithfulFrom(o: Origin, x: Release, ev: Event)
    requires FromCompletion(x, ev) && Contents(ev.staged) == Source(o, x.plan)
    ensures Faithful(o, x)
  {
    hide DigestOf;
  }

  /** So it is enough that every activation found the staged file that the progress it restored was saved over, and that
      no commit took the file of a running download. */
  lemma KeptFilesAreReleased(c: Client, o: Origin, scanner: Scanner, calls: seq<RuntimeCall>, k: nat)
    requires HonestClient(c, o) && k < |RuntimeRun(c, scanner, calls).releases|
    requires Undisturbed(RuntimeRun(c, scanner, calls).engine)
    ensures Faithful(o, RuntimeRun(c, scanner, calls).releases[k])
  {
    hide HonestClient, RuntimeRun, Run, Proper, Inspected, DigestOf, BegunRight, Faithful, AllKept, CallNumbered, Opened, Asked;
    var r := RuntimeRun(c, scanner, calls);
    ReleasedIsTheResource(c, o, scanner, calls, k);
    RuntimeRunIsRun(c, scanner, calls);
    var own: seq<Call> :| Run(c, own) == r.engine && NumberedCalls(own) && Opened(own) <= Asked(calls);
    var j :| 0 <= j < |r.engine.log| && FromCompletion(r.releases[k], r.engine.log[j]) && (BegunRight(r.engine.log, j) ==> Faithful(o, r.releases[k]));
    CompletionIs(r.releases[k], r.engine.log[j]);
    KeptFilesAreRight(c, o, own, j);
  }

  /** The latter is so where no file name is the staged path of a download. */
  lemma ApartNamesAreReleased(c: Client, o: Origin, scanner: Scanner, calls: seq<RuntimeCall>, k: nat)
    requires HonestClient(c, o) && k < |RuntimeRun(c, scanner, calls).releases|
    requires NamesApart(Asked(calls)) && AllKept(RuntimeRun(c, scanner, calls).engine.log)
    ensures Faithful(o, RuntimeRun(c, scanner, calls).releases[k])
  {
    hide HonestClient, RuntimeRun, Run, Faithful, AllKept, CallNumbered, Opened, Asked, StagedPath;
    RuntimeRunIsRun(c, scanner, calls);
    var own: seq<Call> :| Run(c, own) == RuntimeRun(c, scanner, calls).engine && NumberedCalls(own) && Opened(own) <= Asked(calls);
    NoneTaken(c, own);
    KeptFilesAreReleased(c, o, scanner, calls, k);
  }
}
