/** Runs against servers whose replies differ in the bytes alone: the scheduler does the same in both, so whether a
    staged byte is right can depend only on where it was fetched from. */
module AlikeRuns {
  import opened Bytes
  import opened Wrappers
  import opened DownloadPlan
  import opened DownloadCheckpoint
  import opened StagedPaths
  import opened HttpTransport
  import opened TransferScheduler
  import opened SchedulerInvariants
  import opened SchedulerTheorems
  import opened Provenance

  ghost predicate AlikeClients(c: Client, d: Client) {
    && (forall n: nat, url: Text, referrer: Text :: c.inspect(n, url, referrer) == d.inspect(n, url, referrer))
    && (forall n: nat, r: TransportRequest :: AlikeStreams(c.stream(n, r), d.stream(n, r)))
  }

  ghost predicate AlikeBasis(a: Basis, b: Basis) {
    a.plan == b.plan && Bare(a.found) == Bare(b.found)
  }

  ghost predicate AlikeBases(a: map<Text, Basis>, b: map<Text, Basis>) {
    && (forall id :: id in a <==> id in b)
    && (forall id | id in a :: AlikeBasis(a[id], b[id]))
  }

  ghost predicate AlikeEvents(x: Event, y: Event) {
    match x
    case Activated(p, found, kept) => y.Activated? && y.plan == p && y.kept == kept && Bare(y.found) == Bare(found)
    case Complete(p, staged, since, basis) =>
      y.Complete? && y.plan == p && y.since == since && Bare(y.staged) == Bare(staged) && AlikeBasis(basis, y.basis)
    case _ => y == x
  }

  ghost predicate AlikeFiles(a: map<Path, seq<Cell>>, b: map<Path, seq<Cell>>) {
    && (forall path :: path in a <==> path in b)
    && (forall path | path in a :: Bare(a[path]) == Bare(b[path]))
  }

  ghost predicate AlikeLogs(a: seq<Event>, b: seq<Event>) {
    |a| == |b| && forall k | 0 <= k < |a| :: AlikeEvents(a[k], b[k])
  }

  /** Two engines that differ in the staged bytes alone. */
  ghost predicate Alike(e: Engine, f: Engine) {
    && f == e.(files := f.files, bases := f.bases, log := f.log)
    && AlikeFiles(e.files, f.files) && AlikeBases(e.bases, f.bases) && AlikeLogs(e.log, f.log)
  }

  lemma LogsGrow(a: seq<Event>, b: seq<Event>, x: Event, y: Event)
    requires AlikeLogs(a, b) && AlikeEvents(x, y)
    ensures AlikeLogs(a + [x], b + [y])
  {
  }

  lemma AlikeStaged(e: Engine, f: Engine, id: Text)
    requires Alike(e, f)
    ensures Bare(StagedFile(e, id)) == Bare(StagedFile(f, id)) && HomeOf(e, id) == HomeOf(f, id)
  {
    hide AlikeLogs, AlikeBases, Bare, StagedPath;
  }

  lemma AlikeStart(e: Engine, f: Engine, r: Record, m: Metadata)
    requires Alike(e, f)
    ensures Alike(Started(e, r, m), Started(f, r, m))
  {
    hide NewPlan, RestoredPlan, Saved, AlikeFiles, AlikeLogs, StagedFile, Bare, HomeOf;
    var blank := NewPlan(r, m, MAX_SEGMENTS);
    var p := RestoredPlan(e.checkpoints, blank);
    AlikeStaged(e, f, r.id);
    AlikeStaged(e, f, blank.id);
    AlikeStaged(e, f, p.id);
    var x, y := Activated(p, StagedFile(e, r.id), Kept(e, blank)), Activated(p, StagedFile(f, r.id), Kept(f, blank));
    LogLength(e.log, f.log);
    LogsGrow(e.log, f.log, x, y);
    LogsGrow(e.log + [x], f.log + [y], Progress(p), Progress(p));
    BasesGrow(e.bases, f.bases, r.id, Basis(p, StagedFile(e, r.id)), Basis(p, StagedFile(f, r.id)));
    hide AlikeBases;
  }

  lemma BasesGrow(a: map<Text, Basis>, b: map<Text, Basis>, id: Text, x: Basis, y: Basis)
    requires AlikeBases(a, b) && AlikeBasis(x, y)
    ensures AlikeBases(a[id := x], b[id := y])
  {
    hide AlikeBasis;
  }

  lemma LogLength(a: seq<Event>, b: seq<Event>)
    requires AlikeLogs(a, b)
    ensures |a| == |b|
  {
  }

  lemma AlikeActivateOne(c: Client, d: Client, e: Engine, f: Engine)
    requires AlikeClients(c, d) && Alike(e, f) && e.pending != []
    ensures Alike(ActivateOne(c, e), ActivateOne(d, f))
  {
    hide Started, NewPlan, Inspected, AlikeFiles, AlikeLogs, AlikeStreams, FailedId, Alike;
    AlikeLists(e, f);
    var r := e.pending[0];
    assert c.inspect(e.calls, r.url, r.referrer) == d.inspect(f.calls, r.url, r.referrer);
    var m := Inspected(c.inspect(e.calls, r.url, r.referrer));
    AlikeAnswer(e, f, r, m);
    if m.Some? {
      AlikeStart(e.(pending := e.pending[1..], calls := e.calls + 1, log := e.log + [Described(r, m)]),
                 f.(pending := f.pending[1..], calls := f.calls + 1, log := f.log + [Described(r, m)]), r, m.value);
    }
  }

  lemma AlikeLists(e: Engine, f: Engine)
    requires Alike(e, f) && e.pending != []
    ensures f.pending == e.pending && f.calls == e.calls && f.paused == e.paused && f.cancelled == e.cancelled
    ensures Alike(e.(pending := e.pending[1..]), f.(pending := f.pending[1..]))
    ensures Alike(e.(pending := e.pending[1..] + [e.pending[0]]), f.(pending := f.pending[1..] + [f.pending[0]]))
  {
    hide AlikeFiles, AlikeLogs, AlikeBases;
  }

  lemma AlikeAnswer(e: Engine, f: Engine, r: Record, m: Option<Metadata>)
    requires Alike(e, f) && e.pending != []
    ensures var a, b := e.(pending := e.pending[1..], calls := e.calls + 1, log := e.log + [Described(r, m)]),
                        f.(pending := f.pending[1..], calls := f.calls + 1, log := f.log + [Described(r, m)]);
      Alike(a, b) && Alike(FailedId(a, r.id), FailedId(b, r.id))
  {
    hide AlikeFiles, AlikeLogs, AlikeBases;
    LogsGrow(e.log, f.log, Described(r, m), Described(r, m));
    LogsGrow(e.log + [Described(r, m)], f.log + [Described(r, m)], Failure(r.id), Failure(r.id));
  }

  lemma {:induction false} AlikeActivation(c: Client, d: Client, e: Engine, f: Engine, scans: nat)
    requires AlikeClients(c, d) && Alike(e, f)
    ensures Alike(ActivateUpTo(c, e, scans), ActivateUpTo(d, f, scans))
    decreases scans
  {
    hide AlikeClients, ActivateOne, AlikeFiles, AlikeLogs, AlikeBases;
    if |e.active| < MAX_ACTIVE && e.pending != [] && scans > 0 {
      AlikeActivateOne(c, d, e, f);
      AlikeActivation(c, d, ActivateOne(c, e), ActivateOne(d, f), scans - 1);
    }
  }

  lemma AlikeStreaming(c: Client, d: Client, e: Engine, f: Engine, i: nat, k: nat)
    requires AlikeClients(c, d) && Alike(e, f) && i < |e.active| && k < |e.active[i].plan.segments|
    ensures Alike(AfterStreaming(c, e, i, k), AfterStreaming(d, f, i, k))
    ensures ResultAt(c, e, i, k) == ResultAt(d, f, i, k)
  {
    hide Delivered, ResultOf, AlikeLogs, AlikeStreams, Bare, AlikeBases, StagedPath, FilesAfter;
    var request := RequestOf(e.active[i], k);
    assert AlikeStreams(c.stream(e.calls, request), d.stream(f.calls, request));
    AlikeFilesAfter(e.files, f.files, e.names, request, c.stream(e.calls, request), d.stream(f.calls, request));
    AlikeDelivery([], [], VersionAsked(request), 0, c.stream(e.calls, request), d.stream(f.calls, request));
    LogsGrow(e.log, f.log, Transferred(request), Transferred(request));
  }

  lemma AlikeFilesAfter(a: map<Path, seq<Cell>>, b: map<Path, seq<Cell>>, names: map<Text, Text>, r: TransportRequest, s: Stream, t: Stream)
    requires AlikeFiles(a, b) && AlikeStreams(s, t)
    ensures AlikeFiles(FilesAfter(a, names, r, s), FilesAfter(b, names, r, t))
    ensures Writable(a, names, r.id) == Writable(b, names, r.id)
  {
    hide Delivered, AlikeStreams, Bare, StagedPath;
    if Writable(a, names, r.id) {
      var path := StagedPath(names[r.id], r.id);
      AlikeDelivery(a[path], b[path], VersionAsked(r), Base(r), s, t);
    }
  }

  lemma AlikeNoted(e: Engine, f: Engine, i: nat, a: Active)
    requires Alike(e, f) && i < |e.active|
    ensures Alike(Noted(e, i, a), Noted(f, i, a))
  {
    hide AlikeFiles, AlikeLogs, AlikeBases, Saved;
    LogsGrow(e.log, f.log, Progress(a.plan), Progress(a.plan));
  }

  lemma AlikeRunOne(c: Client, d: Client, e: Engine, f: Engine, i: nat)
    requires AlikeClients(c, d) && Alike(e, f) && i < |e.active|
    ensures Alike(RunOne(c, e, i), RunOne(d, f, i))
  {
    hide AlikeClients, AlikeFiles, AlikeLogs, AlikeBases, AfterStreaming, ResultAt, AfterResult, Noted;
    if !Skipped(e, i) {
      var a := e.active[i];
      var k := FirstUnfinished(a.plan.segments);
      if k == |a.plan.segments| {
        AlikeNoted(e, f, i, a.(finished := true));
      } else {
        AlikeStreaming(c, d, e, f, i, k);
        StreamedLists(c, e, i, k);
        AlikeNoted(AfterStreaming(c, e, i, k), AfterStreaming(d, f, i, k), i, AfterResult(a, k, ResultAt(c, e, i, k)));
      }
    }
  }

  lemma StreamedLists(c: Client, e: Engine, i: nat, k: nat)
    requires i < |e.active| && k < |e.active[i].plan.segments|
    ensures AfterStreaming(c, e, i, k).active == e.active
  {
  }

  lemma {:induction false} AlikeRun(c: Client, d: Client, e: Engine, f: Engine, n: nat)
    requires AlikeClients(c, d) && Alike(e, f) && n <= |e.active|
    ensures Alike(RunUpTo(c, e, n), RunUpTo(d, f, n))
  {
    hide AlikeClients, AlikeFiles, AlikeLogs, AlikeBases, RunOne;
    if n > 0 {
      AlikeRun(c, d, e, f, n - 1);
      AlikeRunOne(c, d, RunUpTo(c, e, n - 1), RunUpTo(d, f, n - 1), n - 1);
    }
  }

  lemma AlikeNotedComplete(e: Engine, f: Engine, a: Active)
    requires Alike(e, f)
    ensures Alike(NotedComplete(e, a), NotedComplete(f, a))
  {
    hide AlikeFiles, AlikeLogs, StagedFile, Bare, HomeOf;
    AlikeStaged(e, f, a.record.id);
    LogsGrow(e.log, f.log, CompleteNow(e, a), CompleteNow(f, a));
  }

  lemma {:induction false} AlikeRebased(e: Engine, f: Engine, actives: seq<Active>, path: Path, a: seq<Cell>, b: seq<Cell>)
    requires AlikeBases(e.bases, f.bases) && f.names == e.names && Bare(a) == Bare(b)
    ensures AlikeBases(Rebased(e, actives, path, a), Rebased(f, actives, path, b))
  {
    hide AlikeBases, Bare, StagedPath;
    if actives != [] {
      var last := actives[|actives| - 1];
      AlikeRebased(e, f, actives[..|actives| - 1], path, a, b);
      BasesGrow(Rebased(e, actives[..|actives| - 1], path, a), Rebased(f, actives[..|actives| - 1], path, b), last.record.id, Basis(last.plan, a), Basis(last.plan, b));
    }
  }

  lemma AlikePut(e: Engine, f: Engine, path: Path, a: Option<seq<Cell>>, b: Option<seq<Cell>>)
    requires Alike(e, f) && a.Some? == b.Some? && (a.Some? ==> Bare(a.value) == Bare(b.value))
    ensures Alike(Put(e, path, a), Put(f, path, b))
  {
    hide AlikeLogs, AlikeBases, Bare, Rebased, StagedPath, Off;
    AlikeRebased(e, f, e.active, path, if a.Some? then a.value else [], if b.Some? then b.value else []);
    assert StagedAt(e, e.active, path) == StagedAt(f, f.active, path);
    hide StagedAt;
  }

  lemma AlikeDropped(e: Engine, f: Engine, path: Path)
    requires Alike(e, f)
    ensures Alike(Dropped(e, path), Dropped(f, path))
  {
    hide AlikeLogs, AlikeBases, Bare, Off;
  }

  lemma AlikeFinish(e: Engine, f: Engine, id: Text, ending: Ending)
    requires Alike(e, f)
    ensures Alike(Finish(e, id, ending), Finish(f, id, ending))
  {
    hide Alike, Put, Dropped, NameOf, HomeOf, StagedFile, Forgot, Bare;
    var home, name := HomeOf(e, id), NameOf(e, id);
    AlikeLooks(e, f, id);
    AlikePut(e, f, name, None, None);
    AlikeDropped(e, f, home);
    AlikePut(Dropped(e, home), Dropped(f, home), name, Some(StagedFile(e, id)), Some(StagedFile(f, id)));
    AlikeForgot(AfterCommit(e, id, ending.commit), AfterCommit(f, id, ending.commit), id);
  }

  lemma AlikeLooks(e: Engine, f: Engine, id: Text)
    requires Alike(e, f)
    ensures NameOf(e, id) == NameOf(f, id) && HomeOf(e, id) == HomeOf(f, id) && Bare(StagedFile(e, id)) == Bare(StagedFile(f, id))
    ensures Writable(e.files, e.names, id) == Writable(f.files, f.names, id)
    ensures NameOf(e, id) in e.files <==> NameOf(f, id) in f.files
  {
    hide AlikeLogs, AlikeBases, Bare, StagedPath;
  }

  lemma AlikeForgot(e: Engine, f: Engine, id: Text)
    ensures Alike(e, f) ==> Alike(Forgot(e, id), Forgot(f, id))
  {
    hide AlikeLogs, AlikeBases, AlikeFiles;
  }

  lemma AlikeReportOne(e: Engine, f: Engine, a: Active, ending: Ending)
    requires Alike(e, f)
    ensures Alike(ReportOne(e, a, ending), ReportOne(f, a, ending))
  {
    hide AlikeFiles, AlikeLogs, AlikeBases, Finish, NotedComplete;
    AlikeNotedComplete(e, f, a);
    AlikeFinish(NotedComplete(e, a), NotedComplete(f, a), a.record.id, ending);
    var x, y := if a.finished then Finish(NotedComplete(e, a), a.record.id, ending) else e, if a.finished then Finish(NotedComplete(f, a), a.record.id, ending) else f;
    LogsGrow(x.log, y.log, Failure(a.record.id), Failure(a.record.id));
  }

  lemma {:induction false} AlikeReports(e: Engine, f: Engine, endings: seq<Ending>, n: nat)
    requires Alike(e, f) && n <= |e.active|
    ensures Alike(ReportUpTo(e, endings, n), ReportUpTo(f, endings, n))
  {
    hide AlikeFiles, AlikeLogs, AlikeBases, ReportOne;
    if n > 0 {
      AlikeReports(e, f, endings, n - 1);
      AlikeReportOne(ReportUpTo(e, endings, n - 1), ReportUpTo(f, endings, n - 1), e.active[n - 1], EndingAt(endings, n - 1));
    }
  }

  lemma AlikeWork(c: Client, d: Client, e: Engine, f: Engine)
    requires AlikeClients(c, d) && Alike(e, f)
    ensures Alike(Worked(c, e), Worked(d, f))
  {
    hide AlikeClients, AlikeFiles, AlikeLogs, AlikeBases, ActivateUpTo, RunUpTo;
    AlikeActivation(c, d, e, f, |e.pending|);
    AlikeRun(c, d, ActivateUpTo(c, e, |e.pending|), ActivateUpTo(d, f, |f.pending|), |ActivateUpTo(c, e, |e.pending|).active|);
  }

  lemma AlikePump(c: Client, d: Client, e: Engine, f: Engine, endings: seq<Ending>)
    requires AlikeClients(c, d) && Alike(e, f)
    ensures Alike(AfterPump(c, e, endings), AfterPump(d, f, endings))
    ensures Alike(ReportsDone(c, e, endings), ReportsDone(d, f, endings))
  {
    hide AlikeClients, AlikeFiles, AlikeLogs, AlikeBases, Worked, ReportUpTo, Settled;
    AlikeWork(c, d, e, f);
    var a, b := Worked(c, e), Worked(d, f);
    AlikeReports(a, b, endings, |a.active|);
    AlikeReports(a, b, endings, Min(|endings|, |a.active|));
  }

  lemma AlikeCrash(c: Client, d: Client, e: Engine, f: Engine, scans: nat, runs: nat, torn: bool)
    requires AlikeClients(c, d) && Alike(e, f)
    ensures Alike(Interrupted(c, e, scans, runs, torn), Interrupted(d, f, scans, runs, torn))
  {
    hide AlikeClients, AlikeFiles, AlikeLogs, AlikeBases, ActivateUpTo, RunUpTo, AfterStreaming;
    var scanned := Min(scans, |e.pending|);
    AlikeActivation(c, d, e, f, scanned);
    var a, b := ActivateUpTo(c, e, scanned), ActivateUpTo(d, f, scanned);
    var n := Min(runs, |a.active|);
    AlikeRun(c, d, a, b, n);
    var ran := RunUpTo(c, a, n);
    if n < |ran.active| && FirstUnfinished(ran.active[n].plan.segments) < |ran.active[n].plan.segments| {
      AlikeStreaming(c, d, ran, RunUpTo(d, b, n), n, FirstUnfinished(ran.active[n].plan.segments));
    }
  }

  lemma AlikeMade(e: Engine, f: Engine, id: Text, name: Text)
    requires Alike(e, f)
    ensures Alike(Prepared(e, id, name), Prepared(f, id, name))
  {
    hide AlikeLogs, AlikeBases, Bare, StagedPath;
  }

  lemma AlikeCancelled(e: Engine, f: Engine, id: Text)
    requires Alike(e, f)
    ensures Alike(AfterCancel(e, id), AfterCancel(f, id))
  {
    hide AlikeFiles, AlikeLogs, AlikeBases, WithoutRecord, WithoutActive;
  }

  lemma AlikeCancel(e: Engine, f: Engine, id: Text, drops: Option<Text>)
    requires Alike(e, f)
    ensures Alike(Withdrawn(e, id, drops), Withdrawn(f, id, drops))
  {
    hide Alike, AfterCancel, Forgot, Dropped;
    AlikeCancelled(e, f, id);
    AlikeForgot(AfterCancel(e, id), AfterCancel(f, id), id);
    if drops.Some? {
      AlikeDropped(Forgot(AfterCancel(e, id), id), Forgot(AfterCancel(f, id), id), StagedPath(drops.value, id));
    }
  }

  lemma AlikeQueued(e: Engine, f: Engine, r: Record)
    requires Alike(e, f)
    ensures Alike(AfterQueue(e, r), AfterQueue(f, r)) && CanQueue(e, r) == CanQueue(f, r)
  {
    hide AlikeFiles, AlikeLogs, AlikeBases;
  }

  lemma AlikePrepared(e: Engine, f: Engine, r: Record)
    requires Alike(e, f)
    ensures Alike(HasFile(e, r), HasFile(f, r)) && Alike(AfterQueue(HasFile(e, r), r), AfterQueue(HasFile(f, r), r))
  {
    hide Alike, Prepared, AfterQueue;
    AlikeMade(e, f, r.id, r.name);
    AlikeQueued(HasFile(e, r), HasFile(f, r), r);
  }

  lemma AlikeEnded(e: Engine, f: Engine)
    requires Alike(e, f)
    ensures Alike(Ended(e), Ended(f))
  {
    hide AlikeFiles, AlikeLogs;
  }

  lemma AlikeGates(e: Engine, f: Engine, id: Text)
    requires Alike(e, f)
    ensures Alike(AfterPause(e, id), AfterPause(f, id)) && Alike(AfterResume(e, id), AfterResume(f, id))
    ensures IsPending(e, id) == IsPending(f, id) && IsActive(e, id) == IsActive(f, id)
  {
    hide AlikeFiles, AlikeLogs, AlikeBases;
  }

  lemma AlikeStep(c: Client, d: Client, e: Engine, f: Engine, call: Call)
    requires AlikeClients(c, d) && Alike(e, f)
    ensures Alike(Step(c, e, call), Step(d, f, call))
  {
    hide AlikeClients, Alike, AfterPump, Interrupted, ReportsDone, Withdrawn, HasFile, AfterQueue, CanQueue, AfterPause, AfterResume, IsPending, IsActive, Ended;
    match call
    case Enqueue(r) =>
      AlikeQueued(e, f, r);
      AlikePrepared(e, f, r);
    case Prepare(r) =>
      AlikeGates(e, f, r.id);
      AlikePrepared(e, f, r);
    case Cancel(id, drops) => AlikeCancel(e, f, id, drops);
    case Restart(r) =>
      AlikeCancel(e, f, r.id, Some(r.name));
      AlikePrepared(Withdrawn(e, r.id, Some(r.name)), Withdrawn(f, r.id, Some(r.name)), r);
    case Pump(endings) => AlikePump(c, d, e, f, endings);
    case Crash(scans, runs, torn) =>
      AlikeCrash(c, d, e, f, scans, runs, torn);
      AlikeEnded(Interrupted(c, e, scans, runs, torn), Interrupted(d, f, scans, runs, torn));
    case CrashInReports(endings) =>
      AlikePump(c, d, e, f, endings);
      AlikeEnded(ReportsDone(c, e, endings), ReportsDone(d, f, endings));
    case Pause(id) => AlikeGates(e, f, id);
    case Resume(id) => AlikeGates(e, f, id);
  }

  /** Every run is the same against servers that answer alike, up to the bytes. */
  lemma {:induction false} AlikeRunsAgree(c: Client, d: Client, calls: seq<Call>)
    requires AlikeClients(c, d)
    ensures Alike(Run(c, calls), Run(d, calls))
  {
    hide AlikeClients, Step, AlikeFiles, AlikeLogs, AlikeBases;
    if calls == [] {
      NothingAlike();
    } else {
      AlikeRunsAgree(c, d, calls[..|calls| - 1]);
      AlikeStep(c, d, Run(c, calls[..|calls| - 1]), Run(d, calls[..|calls| - 1]), calls[|calls| - 1]);
    }
  }

  lemma NothingAlike()
    ensures Alike(Empty(), Empty())
  {
  }

  // A server like this one with bytes that tell its version from every other.

  /** The same lengths, but one version is all ones and every other all zeros. */
  function Telling(o: Origin, v: Version): Origin {
    w => seq(|o(w)|, i => if w == v then 1 else 0)
  }

  /** The pieces of a reply filled with the bytes of a range from some place on. */
  function Filled(chunks: seq<seq<byte>>, range: seq<byte>): (filled: seq<seq<byte>>)
    requires |Flatten(chunks)| <= |range|
    ensures |filled| == |chunks|
  {
    if chunks == [] then []
    else
      var rest := chunks[..|chunks| - 1];
      assert |Flatten(rest)| <= |Flatten(chunks)|;
      Filled(rest, range) + [range[|Flatten(rest)|..|Flatten(chunks)|]]
  }

  lemma {:induction false} FilledIs(chunks: seq<seq<byte>>, range: seq<byte>)
    requires |Flatten(chunks)| <= |range|
    ensures forall i | 0 <= i < |chunks| :: |Filled(chunks, range)[i]| == |chunks[i]|
    ensures Flatten(Filled(chunks, range)) == range[..|Flatten(chunks)|]
  {
    if chunks != [] {
      var rest, filled := chunks[..|chunks| - 1], Filled(chunks, range);
      FilledIs(rest, range);
      assert filled[..|filled| - 1] == Filled(rest, range);
    }
  }

  predicate InRange(origin: seq<byte>, r: TransportRequest) {
    r.begin as int + r.resume as int <= r.end as int + 1 <= |origin|
  }

  function Refilled(origin: seq<byte>, r: TransportRequest, s: Stream): Stream {
    if !InRange(origin, r) then s
    else
      var range := origin[r.begin as int + r.resume as int..r.end as int + 1];
      if |Flatten(s.chunks)| <= |range| then s.(chunks := Filled(s.chunks, range)) else s
  }

  function Retold(c: Client, o: Origin): Client {
    Client(c.inspect, (n: nat, r: TransportRequest) => Refilled(o(VersionAsked(r)), r, c.stream(n, r)))
  }

  lemma RefilledIsHonest(origin: seq<byte>, other: seq<byte>, r: TransportRequest, s: Stream)
    requires |origin| == |other| && HonestStream(origin, r, s)
    ensures HonestStream(other, r, Refilled(other, r, s)) && AlikeStreams(s, Refilled(other, r, s))
  {
    hide Flatten, Filled;
    if InRange(other, r) {
      var range := other[r.begin as int + r.resume as int..r.end as int + 1];
      FilledIs(s.chunks, range);
    }
  }

  /** The same client before any other bytes of the same lengths is honest too. */
  lemma RetoldIsHonest(c: Client, o: Origin, p: Origin)
    requires HonestClient(c, o) && forall v :: |p(v)| == |o(v)|
    ensures HonestClient(Retold(c, p), p) && AlikeClients(c, Retold(c, p))
  {
    hide Refilled, HonestStream, AlikeStreams, Inspected;
    var d := Retold(c, p);
    forall n: nat, r: TransportRequest
      ensures HonestStream(p(VersionAsked(r)), r, d.stream(n, r)) && AlikeStreams(c.stream(n, r), d.stream(n, r))
    {
      assert HonestStream(o(VersionAsked(r)), r, c.stream(n, r));
      RefilledIsHonest(o(VersionAsked(r)), p(VersionAsked(r)), r, c.stream(n, r));
    }
    forall n: nat, url: Text, referrer: Text
      ensures var m := Inspected(d.inspect(n, url, referrer)); m.Some? ==> m.value.total == |p(Version(url, m.value.etag, m.value.lastModified))|
    {
      assert c.inspect(n, url, referrer) == d.inspect(n, url, referrer);
    }
  }
}
