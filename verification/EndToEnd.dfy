/** From honest replies to the right file, over every run with pauses, cancellations, crashes in mid-transfer and in
    mid-commit, and resumption from any checkpoint saved on the way: when what is reported complete is the resource. */
module EndToEnd {
  import opened Bytes
  import opened Wrappers
  import opened DownloadPlan
  import opened DownloadCheckpoint
  import opened StagedPaths
  import opened HttpTransport
  import opened TransferScheduler
  import opened SchedulerInvariants
  import opened SchedulerTheorems
  import opened Provenance
  import opened KeptFiles
  import opened NamedFiles
  import opened AlikeRuns

  /** A completion is reported with every byte of the resource in place. */
  ghost predicate ReportedRight(o: Origin, ev: Event) {
    ev.Complete? ==>
      && |Source(o, ev.plan)| == ev.plan.metadata.total <= |ev.staged|
      && Contents(ev.staged)[..ev.plan.metadata.total] == Source(o, ev.plan)
  }

  ghost predicate RightIn(c: Client, o: Origin, calls: seq<Call>, k: nat) {
    k < |Run(c, calls).log| && Run(c, calls).log[k].Complete? && ReportedRight(o, Run(c, calls).log[k])
  }

  /** When the download last came by its staged file, at its activation or when a commit put another file in that one's
      place, each byte it counted as done had been fetched, for its version, into the file it found there. */
  ghost predicate BegunRight(log: seq<Event>, k: nat)
    requires k < |log| && log[k].Complete?
  {
    Backed(log[k].basis.plan, log[k].basis.found)
  }

  // A finished plan that is backed has the whole resource staged.

  lemma FinishedIsWhole(p: Plan, file: seq<Cell>, x: nat)
    requires Underway(p) && AllFinished(p.segments) && Backed(p, file) && x < p.metadata.total
    ensures FromAt(VersionOf(p), file, x)
  {
    hide SameLayout, Layout, TotalDone;
    TilesCover(p.segments, p.metadata.total, x);
    var i :| 0 <= i < |p.segments| && p.segments[i].begin <= x <= p.segments[i].end;
    SegmentInside(p, i);
    assert p.segments[i] in p.segments;
    assert FromOver(VersionOf(p), file, p.segments[i].begin, p.segments[i].begin as int + p.segments[i].done as int);
  }

  lemma WholeIsRight(o: Origin, p: Plan, file: seq<Cell>, since: nat, basis: Basis)
    requires Underway(p) && AllFinished(p.segments) && Backed(p, file) && Rendered(o, file) && Sized(o, p)
    ensures ReportedRight(o, Complete(p, file, since, basis))
  {
    hide Underway, Backed;
    UnderwaySome(p);
    FinishedIsWhole(p, file, p.metadata.total - 1);
    forall x: nat | x < p.metadata.total
      ensures x < |file| && file[x].value == Source(o, p)[x]
    {
      FinishedIsWhole(p, file, x);
      assert RenderedAt(o, file[x], x);
    }
  }

  lemma UnderwaySome(p: Plan)
    requires Underway(p)
    ensures p.metadata.total > 0
  {
  }

  lemma BareBacked(p: Plan, a: seq<Cell>, b: seq<Cell>)
    requires Bare(a) == Bare(b)
    ensures Backed(p, a) <==> Backed(p, b)
  {
    assert |a| == |Bare(a)| == |b|;
    forall x | 0 <= x < |a|
      ensures a[x].from == b[x].from
    {
      assert Bare(a)[x] == Bare(b)[x];
    }
    forall x
      ensures FromAt(VersionOf(p), a, x) == FromAt(VersionOf(p), b, x)
    {
    }
  }

  /** Where a byte of a completed plan was not fetched into the file, bytes that tell the version apart are not there. */
  lemma UnbackedIsWrong(o: Origin, p: Plan, file: seq<Cell>, since: nat, basis: Basis)
    requires Underway(p) && AllFinished(p.segments) && !Backed(p, file)
    requires Rendered(Telling(o, VersionOf(p)), file)
    ensures !ReportedRight(Telling(o, VersionOf(p)), Complete(p, file, since, basis))
  {
    hide Tiles, SameLayout, Layout, TotalDone, Telling;
    var v, t := VersionOf(p), Telling(o, VersionOf(p));
    var i :| 0 <= i < |p.segments| && !FromOver(v, file, p.segments[i].begin, p.segments[i].begin as int + p.segments[i].done as int);
    var x :| p.segments[i].begin as int <= x < p.segments[i].begin as int + p.segments[i].done as int && !FromAt(v, file, x);
    SegmentInside(p, i);
    TellingIs(o, v, v, x);
    if x < |file| {
      assert RenderedAt(t, file[x], x);
      if file[x].from.Some? {
        TellingIs(o, v, file[x].from.value, x);
      }
    }
    if ReportedRight(t, Complete(p, file, since, basis)) {
      RightAtEach(t, p, file, since, basis, x);
    }
  }

  lemma RightAtEach(o: Origin, p: Plan, file: seq<Cell>, since: nat, basis: Basis, x: nat)
    requires ReportedRight(o, Complete(p, file, since, basis)) && x < p.metadata.total
    ensures x < |file| && x < |Source(o, p)| && file[x].value == Source(o, p)[x]
  {
    assert Contents(file)[..p.metadata.total][x] == file[x].value;
  }

  lemma TellingIs(o: Origin, v: Version, w: Version, x: nat)
    ensures |Telling(o, v)(w)| == |o(w)|
    ensures x < |o(w)| ==> Telling(o, v)(w)[x] == if w == v then 1 else 0
  {
  }

  /** A traced completion is right if what it is based on was backed. */
  lemma TracedIsRight(c: Client, o: Origin, rs: set<Record>, log: seq<Event>, taken: set<Text>, k: nat)
    requires k < |log| && log[k].Complete? && EventTraced(c, o, rs, log, taken, k)
    ensures BegunRight(log, k) <==> Backed(log[k].plan, log[k].staged)
    ensures BegunRight(log, k) ==> ReportedRight(o, log[k])
  {
    hide Traced, Backed, Rendered, Underway, Rooted, ReportedRight, Begins;
    var ev := log[k];
    TracedBacked(ev.basis.plan, ev.basis.found, ev.plan, ev.staged);
    BeginsSized(c, o, rs, log, ev.since, ev.plan);
    if BegunRight(log, k) {
      WholeIsRight(o, ev.plan, ev.staged, ev.since, ev.basis);
    }
  }

  lemma TracedHead(begun: Plan, found: seq<Cell>, p: Plan, file: seq<Cell>)
    requires Traced(begun, found, p, file)
    ensures SameHead(begun, p)
  {
  }

  lemma RunEventTraced(c: Client, o: Origin, calls: seq<Call>, k: nat)
    requires HonestClient(c, o) && NumberedCalls(calls) && k < |Run(c, calls).log|
    ensures EventTraced(c, o, Records(calls), Run(c, calls).log, Run(c, calls).taken, k)
  {
    hide HonestClient, Run, EventTraced, ActiveTraced, FilesRendered, CallNumbered, AllNumbered;
    RunIsTracked(c, o, calls);
  }

  /** A completion is of a download that was asked for, as its server described it for the activation that it ends. */
  lemma CompleteIsAskedFor(c: Client, o: Origin, calls: seq<Call>, k: nat)
    requires HonestClient(c, o) && NumberedCalls(calls) && k < |Run(c, calls).log| && Run(c, calls).log[k].Complete?
    ensures var log := Run(c, calls).log;
      var since := log[k].since;
      && since < k && log[since].Activated? && SameHead(log[since].plan, log[k].plan) && SameHead(log[k].basis.plan, log[k].plan)
      && (exists call | call in calls && (call.Enqueue? || call.Restart?) ::
            call.record.id == log[k].plan.id && call.record.url == log[k].plan.url && call.record.referrer == log[k].plan.referrer)
      && (exists n: nat :: Inspected(c.inspect(n, log[k].plan.url, log[k].plan.referrer)) == Some(log[k].plan.metadata))
  {
    hide HonestClient, Run, Inspected, Rendered, Underway, CallNumbered, Rooted;
    RunEventTraced(c, o, calls, k);
    var log := Run(c, calls).log;
    TracedHead(log[k].basis.plan, log[k].basis.found, log[k].plan, log[k].staged);
    hide Traced;
    assert AskedFor(Records(calls), log[log[k].since].plan) && Answered(c, log[log[k].since].plan);
  }

  /** Unless a commit took its file, what a completion is based on is what its activation began with. */
  lemma UntakenSinceActivation(c: Client, o: Origin, calls: seq<Call>, k: nat)
    requires HonestClient(c, o) && NumberedCalls(calls) && k < |Run(c, calls).log| && Run(c, calls).log[k].Complete?
    requires Run(c, calls).log[k].plan.id !in Run(c, calls).taken
    ensures var log := Run(c, calls).log;
      && log[k].since < k && log[log[k].since].Activated?
      && (BegunRight(log, k) <==> Backed(log[log[k].since].plan, log[log[k].since].found))
  {
    hide HonestClient, Run, Rendered, Underway, CallNumbered, Traced, Backed, Begins;
    RunEventTraced(c, o, calls, k);
    BeginsHere(c, o, Records(calls), Run(c, calls).log, Run(c, calls).log[k].since);
  }

  /** If what it is based on had been fetched into the file found, the staged file begins with the resource, byte for
      byte; and where its length is the planned one, which is checked before release, it is the resource. */
  lemma CompleteIsTheResource(c: Client, o: Origin, calls: seq<Call>, k: nat)
    requires HonestClient(c, o) && NumberedCalls(calls)
    requires k < |Run(c, calls).log| && Run(c, calls).log[k].Complete? && BegunRight(Run(c, calls).log, k)
    ensures var plan, staged := Run(c, calls).log[k].plan, Run(c, calls).log[k].staged;
      && |Source(o, plan)| == plan.metadata.total <= |staged|
      && Contents(staged)[..plan.metadata.total] == Source(o, plan)
      && (|staged| == plan.metadata.total ==> Contents(staged) == Source(o, plan))
  {
    hide HonestClient, Run, EventTraced, BegunRight, Source, CallNumbered;
    RunEventTraced(c, o, calls, k);
    TracedIsRight(c, o, Records(calls), Run(c, calls).log, Run(c, calls).taken, k);
    var ev := Run(c, calls).log[k];
    assert Contents(ev.staged)[..|ev.staged|] == Contents(ev.staged);
  }

  /** And exactly then: a completion is right against every server that gives the same answers up to the bytes, if and
      only if each byte counted as done when the download last came by its staged file had been fetched, for that
      version, into that file. */
  lemma CompleteIsRightExactly(c: Client, o: Origin, calls: seq<Call>, k: nat)
    requires HonestClient(c, o) && NumberedCalls(calls) && k < |Run(c, calls).log| && Run(c, calls).log[k].Complete?
    ensures (forall d: Client, p: Origin | AlikeClients(c, d) && HonestClient(d, p) :: RightIn(d, p, calls, k))
            <==> BegunRight(Run(c, calls).log, k)
  {
    hide HonestClient, AlikeClients, Run, BegunRight, RightIn, CallNumbered;
    if BegunRight(Run(c, calls).log, k) {
      forall d: Client, p: Origin | AlikeClients(c, d) && HonestClient(d, p)
        ensures RightIn(d, p, calls, k)
      {
        AlikeIsRight(c, o, d, p, calls, k);
      }
    } else {
      ToldApart(c, o, calls, k);
      var v := VersionOf(Run(c, calls).log[k].plan);
      assert !RightIn(Retold(c, Telling(o, v)), Telling(o, v), calls, k);
    }
  }

  /** What is begun right in one run is in every alike run. */
  lemma AlikeBegun(c: Client, o: Origin, d: Client, p: Origin, calls: seq<Call>, k: nat)
    requires HonestClient(c, o) && AlikeClients(c, d) && HonestClient(d, p) && NumberedCalls(calls)
    requires k < |Run(c, calls).log| && Run(c, calls).log[k].Complete?
    ensures k < |Run(d, calls).log| && Run(d, calls).log[k].Complete? && Run(d, calls).log[k].plan == Run(c, calls).log[k].plan
    ensures EventTraced(d, p, Records(calls), Run(d, calls).log, Run(d, calls).taken, k)
    ensures BegunRight(Run(c, calls).log, k) <==> BegunRight(Run(d, calls).log, k)
  {
    hide HonestClient, AlikeClients, Run, AlikeFiles, AlikeBases, Backed, Bare, EventTraced, CallNumbered;
    AlikeRunsAgree(c, d, calls);
    var a, b := Run(c, calls).log, Run(d, calls).log;
    assert AlikeEvents(a[k], b[k]);
    RunEventTraced(d, p, calls, k);
    BareBacked(a[k].basis.plan, a[k].basis.found, b[k].basis.found);
  }

  lemma AlikeIsRight(c: Client, o: Origin, d: Client, p: Origin, calls: seq<Call>, k: nat)
    requires HonestClient(c, o) && AlikeClients(c, d) && HonestClient(d, p) && NumberedCalls(calls)
    requires k < |Run(c, calls).log| && Run(c, calls).log[k].Complete? && BegunRight(Run(c, calls).log, k)
    ensures RightIn(d, p, calls, k)
  {
    hide HonestClient, AlikeClients, Run, EventTraced, BegunRight, ReportedRight, CallNumbered;
    AlikeBegun(c, o, d, p, calls, k);
    TracedIsRight(d, p, Records(calls), Run(d, calls).log, Run(d, calls).taken, k);
  }

  lemma ToldApart(c: Client, o: Origin, calls: seq<Call>, k: nat)
    requires HonestClient(c, o) && NumberedCalls(calls)
    requires k < |Run(c, calls).log| && Run(c, calls).log[k].Complete? && !BegunRight(Run(c, calls).log, k)
    ensures var told := Telling(o, VersionOf(Run(c, calls).log[k].plan));
      HonestClient(Retold(c, told), told) && AlikeClients(c, Retold(c, told)) && !RightIn(Retold(c, told), told, calls, k)
  {
    hide HonestClient, AlikeClients, Run, BegunRight, ReportedRight, Telling, Retold, Traced, Backed, Rendered, Underway, Begins, Rooted, CallNumbered;
    var told := Telling(o, VersionOf(Run(c, calls).log[k].plan));
    forall v
      ensures |told(v)| == |o(v)|
    {
      TellingIs(o, VersionOf(Run(c, calls).log[k].plan), v, 0);
    }
    RetoldIsHonest(c, o, told);
    var d := Retold(c, told);
    AlikeBegun(c, o, d, told, calls, k);
    var ev := Run(d, calls).log[k];
    TracedIsRight(d, told, Records(calls), Run(d, calls).log, Run(d, calls).taken, k);
    UnbackedIsWrong(o, ev.plan, ev.staged, ev.since, ev.basis);
  }

  /** So it is enough that every activation found the staged file that the progress it restored was saved over, and that
      no commit took the file of a running download. */
  lemma KeptFilesAreRight(c: Client, o: Origin, calls: seq<Call>, k: nat)
    requires HonestClient(c, o) && NumberedCalls(calls) && Undisturbed(Run(c, calls))
    requires k < |Run(c, calls).log| && Run(c, calls).log[k].Complete?
    ensures BegunRight(Run(c, calls).log, k) && ReportedRight(o, Run(c, calls).log[k])
  {
    hide HonestClient, Run, Backed, ReportedRight, CheckpointBacked, ActiveSaved, CallNumbered, EventTraced, AllKept, Numbered;
    RunEventTraced(c, o, calls, k);
    RunIsKept(c, o, calls);
    UntakenSinceActivation(c, o, calls, k);
    TracedIsRight(c, o, Records(calls), Run(c, calls).log, Run(c, calls).taken, k);
  }

  /** For which it is enough, besides, that no file name is the staged path of a download. */
  lemma ApartNamesAreRight(c: Client, o: Origin, calls: seq<Call>, k: nat)
    requires HonestClient(c, o) && NumberedCalls(calls) && AllKept(Run(c, calls).log) && NamesApart(Opened(calls))
    requires k < |Run(c, calls).log| && Run(c, calls).log[k].Complete?
    ensures BegunRight(Run(c, calls).log, k) && ReportedRight(o, Run(c, calls).log[k])
  {
    hide HonestClient, Run, ReportedRight, CallNumbered, AllKept, NamesApart, BegunRight;
    NoneTaken(c, calls);
    KeptFilesAreRight(c, o, calls, k);
  }

  /** And where something was counted as done over a file that has not even its first byte from the version, as over a file
      made new or a file of another resource, the completion is not right. */
  lemma OtherFileIsWrong(log: seq<Event>, k: nat, i: nat)
    requires k < |log| && log[k].Complete? && i < |log[k].basis.plan.segments| && log[k].basis.plan.segments[i].done > 0
    requires var begin := log[k].basis.plan.segments[i].begin;
      begin >= |log[k].basis.found| || log[k].basis.found[begin].from != Some(VersionOf(log[k].basis.plan))
    ensures !BegunRight(log, k)
  {
    var s := log[k].basis.plan.segments[i];
    assert !FromAt(VersionOf(log[k].basis.plan), log[k].basis.found, s.begin);
  }

  // Where no version of a resource was ever longer, and file names are apart, the staged file has exactly the planned length.

  type Home = Text -> nat

  /** No version of the record's resource is longer than its id allows. */
  ghost predicate FitsHome(o: Origin, home: Home, r: Record) {
    forall etag: Option<Text>, lastModified: Option<Text> :: |o(Version(r.url, etag, lastModified))| <= home(r.id)
  }

  ghost predicate CallFits(o: Origin, home: Home, call: Call) {
    (call.Enqueue? || call.Restart?) ==> FitsHome(o, home, call.record)
  }

  ghost predicate Short(home: Home, ev: Event) {
    ev.Complete? ==> |ev.staged| <= home(ev.plan.id)
  }

  /** The staged files of these records are no longer than their ids allow. */
  ghost predicate FilesShort(e: Engine, home: Home, rs: set<Record>) {
    forall r | r in rs :: |FileAt(e, StagedPath(r.name, r.id))| <= home(r.id)
  }

  ghost predicate LogShort(e: Engine, home: Home) {
    forall k | 0 <= k < |e.log| :: Short(home, e.log[k])
  }

  ghost predicate RecordsFit(e: Engine, o: Origin, home: Home) {
    && (forall i | 0 <= i < |e.pending| :: FitsHome(o, home, e.pending[i]))
    && (forall i | 0 <= i < |e.active| :: FitsHome(o, home, e.active[i].record))
  }

  ghost predicate Bounded(e: Engine, o: Origin, home: Home, rs: set<Record>) {
    FilesShort(e, home, rs) && LogShort(e, home) && RecordsFit(e, o, home)
  }

  ghost predicate Among(actives: seq<Active>, fewer: seq<Active>) {
    forall i | 0 <= i < |fewer| :: HasRecord(actives, fewer[i].record)
  }

  ghost predicate HasRecord(actives: seq<Active>, r: Record) {
    exists j | 0 <= j < |actives| :: actives[j].record == r
  }

  /** Files as they were, the lists no longer, and the log without new completions. */
  lemma BoundedFrame(e: Engine, f: Engine, o: Origin, home: Home, rs: set<Record>)
    requires Bounded(e, o, home, rs) && e.log <= f.log && forall k | |e.log| <= k < |f.log| :: !f.log[k].Complete?
    requires forall path: Path :: |FileAt(f, path)| <= |FileAt(e, path)|
    requires forall i | 0 <= i < |f.pending| :: f.pending[i] in e.pending
    requires f.active == e.active || Among(e.active, f.active)
    ensures Bounded(f, o, home, rs)
  {
    hide FitsHome, FileAt, StagedPath;
    forall k | 0 <= k < |f.log|
      ensures Short(home, f.log[k])
    {
      assert k < |e.log| ==> f.log[k] == e.log[k] && Short(home, e.log[k]);
    }
  }

  lemma SameFileSizes(e: Engine, f: Engine)
    requires f.files == e.files
    ensures forall path: Path :: FileAt(f, path) == FileAt(e, path)
  {
  }

  lemma StartBounded(e: Engine, o: Origin, home: Home, rs: set<Record>, r: Record, m: Metadata)
    requires Bounded(e, o, home, rs) && FitsHome(o, home, r)
    ensures Bounded(Started(e, r, m), o, home, rs)
  {
    hide FitsHome, NewPlan, RestoredPlan, StagedFile, Kept, Started, StagedPath;
    var f := Started(e, r, m);
    StartedParts(e, r, m);
    SameFileSizes(e, f);
    forall k | 0 <= k < |f.log|
      ensures Short(home, f.log[k])
    {
      assert k < |e.log| ==> f.log[k] == e.log[k] && Short(home, e.log[k]);
    }
  }

  lemma ActivateOneBounded(c: Client, o: Origin, home: Home, rs: set<Record>, e: Engine)
    requires Bounded(e, o, home, rs) && e.pending != []
    ensures Bounded(ActivateOne(c, e), o, home, rs)
  {
    hide Bounded, FitsHome, NewPlan, Started, Inspected;
    var r, f := e.pending[0], ActivateOne(c, e);
    var m := Inspected(c.inspect(e.calls, r.url, r.referrer));
    var asked := e.(pending := e.pending[1..], calls := e.calls + 1, log := e.log + [Described(r, m)]);
    FrontFits(e, o, home, rs);
    SameFileSizes(e, asked);
    BoundedFrame(e, asked, o, home, rs);
    if r.id !in e.cancelled && r.id !in e.paused && m.Some? && NewPlan(r, m.value, MAX_SEGMENTS).segments != [] {
      StartBounded(asked, o, home, rs, r, m.value);
    } else {
      SameFileSizes(e, f);
      BoundedFrame(e, f, o, home, rs);
    }
  }

  lemma FrontFits(e: Engine, o: Origin, home: Home, rs: set<Record>)
    requires Bounded(e, o, home, rs) && e.pending != []
    ensures FitsHome(o, home, e.pending[0])
  {
    hide FitsHome, FilesShort, LogShort;
  }

  lemma {:induction false} ActivationBounded(c: Client, o: Origin, home: Home, rs: set<Record>, e: Engine, scans: nat)
    requires Bounded(e, o, home, rs)
    ensures Bounded(ActivateUpTo(c, e, scans), o, home, rs)
    decreases scans
  {
    hide Bounded, ActivateOne;
    if |e.active| < MAX_ACTIVE && e.pending != [] && scans > 0 {
      ActivateOneBounded(c, o, home, rs, e);
      ActivationBounded(c, o, home, rs, ActivateOne(c, e), scans - 1);
    }
  }

  lemma SizedActive(c: Client, o: Origin, rs: set<Record>, e: Engine, a: Active)
    requires ActiveTraced(c, o, rs, e, a)
    ensures Sized(o, a.plan)
  {
    hide Begins, Traced, StagedFile, Sized, Rooted;
    BeginsSized(c, o, rs, e.log, a.since, a.plan);
  }

  /** A transfer makes a staged file no longer than its resource. */
  lemma StreamedShort(c: Client, o: Origin, rs: set<Record>, home: Home, e: Engine, i: nat, k: nat)
    requires HonestClient(c, o) && Sound(e) && BytesTracked(c, o, rs, e) && i < |e.active| && FitsHome(o, home, e.active[i].record)
    requires k < |e.active[i].plan.segments| && !e.active[i].plan.segments[k].finished
    ensures var before, after := StagedFile(e, e.active[i].record.id), StagedFile(AfterStreaming(c, e, i, k), e.active[i].record.id);
      |after| <= |before| || |after| <= home(e.active[i].record.id)
  {
    hide HonestClient, Sound, Underway, Budget, FilesAfter, ResultOf, AfterTransfer, ActiveTraced, LogTraced, FilesRendered, FromOver, FromAt, Rendered, StagedFile, AllNumbered;
    var a := e.active[i];
    OneSound(e, i);
    SizedActive(c, o, rs, e, a);
    TransferFetches(c, o, e, i, k);
    ActiveUnderway(a);
    FitsPlan(o, home, a.record, a.plan);
  }

  lemma FitsPlan(o: Origin, home: Home, r: Record, p: Plan)
    requires FitsHome(o, home, r) && p.url == r.url
    ensures |o(VersionOf(p))| <= home(r.id)
  {
  }

  lemma StreamingBounded(c: Client, o: Origin, rs: set<Record>, home: Home, all: set<Record>, e: Engine, i: nat, k: nat)
    requires HonestClient(c, o) && Sound(e) && BytesTracked(c, o, rs, e) && Bounded(e, o, home, all) && AllNumbered(all) && i < |e.active|
    requires k < |e.active[i].plan.segments| && !e.active[i].plan.segments[k].finished
    ensures Bounded(AfterStreaming(c, e, i, k), o, home, all)
  {
    hide HonestClient, Sound, BytesTracked, FilesAfter, FitsHome, StagedPath, FileAt, Numbered, Short;
    var a, f := e.active[i], AfterStreaming(c, e, i, k);
    StreamedShort(c, o, rs, home, e, i, k);
    ActiveNumbered(c, o, rs, e, a);
    forall r | r in all
      ensures |FileAt(f, StagedPath(r.name, r.id))| <= home(r.id)
    {
      if StagedPath(r.name, r.id) == HomeOf(e, a.record.id) {
        StagedApart(r.name, r.id, NameOf(e, a.record.id), a.record.id);
      } else {
        OtherFiles(c, e, i, k, StagedPath(r.name, r.id));
      }
    }
    StreamedLogShort(c, home, e, i, k);
  }

  lemma StreamedLogShort(c: Client, home: Home, e: Engine, i: nat, k: nat)
    requires i < |e.active| && k < |e.active[i].plan.segments| && LogShort(e, home)
    ensures LogShort(AfterStreaming(c, e, i, k), home)
  {
    hide FilesAfter;
    var f := AfterStreaming(c, e, i, k);
    forall j | 0 <= j < |f.log|
      ensures Short(home, f.log[j])
    {
      assert j < |e.log| ==> f.log[j] == e.log[j] && Short(home, e.log[j]);
    }
  }

  lemma NotedBounded(e: Engine, i: nat, a: Active, o: Origin, home: Home, rs: set<Record>)
    requires Bounded(e, o, home, rs) && i < |e.active| && a.record == e.active[i].record
    ensures Bounded(Noted(e, i, a), o, home, rs)
  {
    hide Bounded, Saved, NameOf;
    var f := Noted(e, i, a);
    SameFileSizes(e, f);
    forall j | 0 <= j < |f.active|
      ensures HasRecord(e.active, f.active[j].record)
    {
      assert e.active[j].record == f.active[j].record;
    }
    BoundedFrame(e, f, o, home, rs);
  }

  lemma RunOneBounded(c: Client, o: Origin, rs: set<Record>, home: Home, all: set<Record>, e: Engine, i: nat)
    requires HonestClient(c, o) && Sound(e) && BytesTracked(c, o, rs, e) && Bounded(e, o, home, all) && AllNumbered(all) && i < |e.active|
    ensures Bounded(RunOne(c, e, i), o, home, all)
  {
    hide HonestClient, Sound, BytesTracked, Bounded, AfterStreaming, AfterResult, ResultAt, Noted, AllNumbered;
    if !Skipped(e, i) {
      var a, k := e.active[i], FirstUnfinished(e.active[i].plan.segments);
      if k == |a.plan.segments| {
        NotedBounded(e, i, a.(finished := true), o, home, all);
      } else {
        StreamingBounded(c, o, rs, home, all, e, i, k);
        StreamedActive(c, e, i, k);
        ResultShape(a, k, ResultAt(c, e, i, k));
        NotedBounded(AfterStreaming(c, e, i, k), i, AfterResult(a, k, ResultAt(c, e, i, k)), o, home, all);
      }
    }
  }

  lemma {:induction false} RunBounded(c: Client, o: Origin, rs: set<Record>, home: Home, all: set<Record>, e: Engine, n: nat)
    requires HonestClient(c, o) && Sound(e) && BytesTracked(c, o, rs, e) && Bounded(e, o, home, all) && AllNumbered(all) && n <= |e.active|
    ensures Bounded(RunUpTo(c, e, n), o, home, all)
  {
    hide HonestClient, Sound, BytesTracked, Bounded, RunOne, AllNumbered;
    if n > 0 {
      RunBounded(c, o, rs, home, all, e, n - 1);
      RunKeeps(c, e, n - 1);
      RunTracks(c, o, rs, e, n - 1);
      RunOneBounded(c, o, rs, home, all, RunUpTo(c, e, n - 1), n - 1);
    }
  }

  // The reports.

  /** The staged file of a listed download is that of one of the records. */
  lemma StagedShort(e: Engine, home: Home, rs: set<Record>, id: Text)
    requires FilesShort(e, home, rs) && IsNamed(rs, e, id)
    ensures |StagedFile(e, id)| <= home(id)
  {
    hide StagedPath;
    var r :| r in rs && NamedBy(e, id, r);
  }

  lemma NotedCompleteBounded(e: Engine, o: Origin, home: Home, rs: set<Record>, a: Active)
    requires Bounded(e, o, home, rs) && IsNamed(rs, e, a.record.id) && a.plan.id == a.record.id
    ensures Bounded(NotedComplete(e, a), o, home, rs)
  {
    hide FitsHome, StagedFile, FileAt, StagedPath, IsNamed, BasisOf;
    var f := NotedComplete(e, a);
    StagedShort(e, home, rs, a.record.id);
    forall k | 0 <= k < |f.log|
      ensures Short(home, f.log[k])
    {
      assert k < |e.log| ==> f.log[k] == e.log[k] && Short(home, e.log[k]);
    }
    SameFileSizes(e, f);
  }

  /** What a callback does to the disk makes no staged file of the records longer: the path it moves to is none of theirs. */
  lemma FinishBounded(e: Engine, o: Origin, home: Home, rs: set<Record>, id: Text, ending: Ending)
    requires Bounded(e, o, home, rs) && NamesApart(rs) && (id in e.names ==> IsNamed(rs, e, id))
    ensures Bounded(Finish(e, id, ending), o, home, rs)
  {
    hide FitsHome, LogShort, StagedPath, Finish, AfterCommit;
    var f := Finish(e, id, ending);
    FinishKeepsLists(e, id, ending);
    forall r | r in rs
      ensures |FileAt(f, StagedPath(r.name, r.id))| <= home(r.id)
    {
      if id in e.names {
        var q :| q in rs && NamedBy(e, id, q);
        assert q.name != StagedPath(r.name, r.id);
      }
      FinishElsewhere(e, id, ending, StagedPath(r.name, r.id));
    }
    SameLogShort(e, f, home);
  }

  lemma SameLogShort(e: Engine, f: Engine, home: Home)
    requires LogShort(e, home) && f.log == e.log
    ensures LogShort(f, home)
  {
  }

  /** At other paths than the one a download ends up at, a callback only removes. */
  lemma FinishElsewhere(e: Engine, id: Text, ending: Ending, path: Path)
    requires id in e.names ==> path != e.names[id]
    ensures FileAt(Finish(e, id, ending), path) == FileAt(e, path) || FileAt(Finish(e, id, ending), path) == []
    ensures path != HomeOf(e, id) ==> FileAt(Finish(e, id, ending), path) == FileAt(e, path)
  {
    hide Off, Rebased, StagedAt, StagedPath;
  }

  lemma ReportOneBounded(e: Engine, o: Origin, home: Home, rs: set<Record>, i: nat, ending: Ending)
    requires Bounded(e, o, home, rs) && NamesApart(rs) && Named(rs, e) && i < |e.active| && e.active[i].plan.id == e.active[i].record.id
    ensures Bounded(ReportOne(e, e.active[i], ending), o, home, rs)
  {
    hide Bounded, Finish, IsNamed, NamesApart, NotedComplete;
    var a := e.active[i];
    var first := if a.finished then Finish(NotedComplete(e, a), a.record.id, ending) else e;
    if a.finished {
      NotedCompleteBounded(e, o, home, rs, a);
      NotedNamed(rs, e, a);
      NotedNow(e, a);
      FinishBounded(NotedComplete(e, a), o, home, rs, a.record.id, ending);
    }
    var f := ReportOne(e, a, ending);
    SameFileSizes(first, f);
    ReportKeepsLists(e, a, ending);
    FailedBounded(first, o, home, rs, a.record.id);
  }

  lemma FailedBounded(e: Engine, o: Origin, home: Home, rs: set<Record>, id: Text)
    requires Bounded(e, o, home, rs)
    ensures Bounded(FailedId(e, id), o, home, rs)
  {
    hide Bounded;
    SameFileSizes(e, FailedId(e, id));
    BoundedFrame(e, FailedId(e, id), o, home, rs);
  }

  lemma {:induction false} ReportsBounded(e: Engine, o: Origin, home: Home, rs: set<Record>, endings: seq<Ending>, n: nat)
    requires Sound(e) && Bounded(e, o, home, rs) && NamesApart(rs) && Named(rs, e) && n <= |e.active|
    ensures Bounded(ReportUpTo(e, endings, n), o, home, rs)
  {
    hide Sound, Bounded, NamesApart, Named, ReportOne, EndingAt;
    if n > 0 {
      ReportsBounded(e, o, home, rs, endings, n - 1);
      NamedReports(rs, e, endings, n - 1);
      ReportFrame(e, endings, n - 1);
      SoundNames(e, n - 1);
      ReportOneBounded(ReportUpTo(e, endings, n - 1), o, home, rs, n - 1, EndingAt(endings, n - 1));
    }
  }

  lemma SweptBounded(e: Engine, o: Origin, home: Home, rs: set<Record>)
    requires Bounded(e, o, home, rs)
    ensures Bounded(Swept(e), o, home, rs)
  {
    hide Bounded, Settled;
    SettledAre(e.cancelled, e.active);
    SameFileSizes(e, Swept(e));
    FewerListed(e.active, Swept(e).active);
    BoundedFrame(e, Swept(e), o, home, rs);
  }

  lemma FewerListed(actives: seq<Active>, fewer: seq<Active>)
    requires forall a | a in fewer :: a in actives
    ensures Among(actives, fewer)
  {
    forall i | 0 <= i < |fewer|
      ensures HasRecord(actives, fewer[i].record)
    {
      assert fewer[i] in fewer;
      var j :| 0 <= j < |actives| && actives[j] == fewer[i];
      assert actives[j].record == fewer[i].record;
    }
  }

  lemma WorkBounded(c: Client, o: Origin, rs: set<Record>, home: Home, all: set<Record>, e: Engine)
    requires HonestClient(c, o) && Sound(e) && BytesTracked(c, o, rs, e) && Bounded(e, o, home, all) && AllNumbered(all)
    ensures Bounded(Worked(c, e), o, home, all)
  {
    hide HonestClient, Sound, BytesTracked, Bounded, ActivateUpTo, RunUpTo, AllNumbered;
    var activated := ActivateUpTo(c, e, |e.pending|);
    ActivationTracks(c, o, rs, e, |e.pending|);
    ActivationKeeps(c, e, |e.pending|);
    ActivationBounded(c, o, home, all, e, |e.pending|);
    RunBounded(c, o, rs, home, all, activated, |activated.active|);
  }

  /** What has to hold of a state for the rest of a run to keep files short. */
  ghost predicate Ready(c: Client, o: Origin, rs: set<Record>, home: Home, all: set<Record>, e: Engine) {
    && HonestClient(c, o) && Sound(e) && BytesTracked(c, o, rs, e) && Bounded(e, o, home, all)
    && AllNumbered(all) && NamesApart(all) && Named(all, e)
  }

  lemma PumpBounded(c: Client, o: Origin, rs: set<Record>, home: Home, all: set<Record>, e: Engine, endings: seq<Ending>)
    requires Ready(c, o, rs, home, all, e)
    ensures Bounded(AfterPump(c, e, endings), o, home, all) && Bounded(Ended(ReportsDone(c, e, endings)), o, home, all)
  {
    hide HonestClient, Sound, BytesTracked, Bounded, Worked, ReportUpTo, Swept, AllNumbered, NamesApart, Named, Ended;
    var worked := Worked(c, e);
    WorkBounded(c, o, rs, home, all, e);
    NamedWork(c, all, e);
    ReportsBounded(worked, o, home, all, endings, |worked.active|);
    SweptBounded(ReportUpTo(worked, endings, |worked.active|), o, home, all);
    ReportsBounded(worked, o, home, all, endings, Min(|endings|, |worked.active|));
    EndedBounded(ReportsDone(c, e, endings), o, home, all);
  }

  lemma EndedBounded(e: Engine, o: Origin, home: Home, rs: set<Record>)
    requires Bounded(e, o, home, rs)
    ensures Bounded(Ended(e), o, home, rs)
  {
    hide Bounded;
    SameFileSizes(e, Ended(e));
    BoundedFrame(e, Ended(e), o, home, rs);
  }

  lemma CrashBounded(c: Client, o: Origin, rs: set<Record>, home: Home, all: set<Record>, e: Engine, scans: nat, runs: nat, torn: bool)
    requires Ready(c, o, rs, home, all, e)
    ensures Bounded(Ended(Interrupted(c, e, scans, runs, torn)), o, home, all)
  {
    hide HonestClient, Sound, BytesTracked, Bounded, ActivateUpTo, RunUpTo, AfterStreaming, Ended, AllNumbered, NamesApart, Named;
    var activated := ActivateUpTo(c, e, Min(scans, |e.pending|));
    ActivationTracks(c, o, rs, e, Min(scans, |e.pending|));
    ActivationKeeps(c, e, Min(scans, |e.pending|));
    ActivationBounded(c, o, home, all, e, Min(scans, |e.pending|));
    var n := Min(runs, |activated.active|);
    RunTracks(c, o, rs, activated, n);
    RunKeeps(c, activated, n);
    RunBounded(c, o, rs, home, all, activated, n);
    var ran := RunUpTo(c, activated, n);
    if torn && n < |ran.active| && !Skipped(ran, n) && FirstUnfinished(ran.active[n].plan.segments) < |ran.active[n].plan.segments| {
      StreamingBounded(c, o, rs, home, all, ran, n, FirstUnfinished(ran.active[n].plan.segments));
    }
    EndedBounded(Interrupted(c, e, scans, runs, torn), o, home, all);
  }

  lemma CancelBounded(e: Engine, o: Origin, home: Home, rs: set<Record>, id: Text, drops: Option<Text>)
    requires Bounded(e, o, home, rs)
    ensures Bounded(Withdrawn(e, id, drops), o, home, rs)
  {
    hide Bounded, WithoutRecord, WithoutActive, Off, StagedPath;
    var f := Withdrawn(e, id, drops);
    WithoutRecordIs(e.pending, id);
    WithoutActiveIs(e.active, id);
    FewerListed(e.active, f.active);
    BoundedFrame(e, f, o, home, rs);
  }

  lemma PreparedBounded(e: Engine, o: Origin, home: Home, rs: set<Record>, r: Record)
    requires Bounded(e, o, home, rs)
    ensures Bounded(HasFile(e, r), o, home, rs)
    ensures FitsHome(o, home, r) ==> Bounded(AfterQueue(HasFile(e, r), r), o, home, rs)
  {
    hide Bounded, FitsHome, CanQueue, StagedPath;
    var f := HasFile(e, r);
    BoundedFrame(e, f, o, home, rs);
    if FitsHome(o, home, r) {
      QueuedBounded(f, o, home, rs, r);
    }
  }

  lemma QueuedBounded(e: Engine, o: Origin, home: Home, rs: set<Record>, r: Record)
    requires Bounded(e, o, home, rs) && FitsHome(o, home, r)
    ensures Bounded(AfterQueue(e, r), o, home, rs)
  {
    hide FitsHome, CanQueue, StagedPath;
    SameFileSizes(e, AfterQueue(e, r));
    SameLogShort(e, AfterQueue(e, r), home);
    hide LogShort, FileAt;
  }

  lemma StepBounded(c: Client, o: Origin, rs: set<Record>, home: Home, all: set<Record>, e: Engine, call: Call)
    requires Ready(c, o, rs, home, all, e) && CallFits(o, home, call)
    ensures Bounded(Step(c, e, call), o, home, all)
  {
    hide Ready, FitsHome, Bounded, AfterPump, Interrupted, ReportsDone, Ended, Withdrawn, HasFile, AfterQueue, CanQueue, IsPending, IsActive;
    assert Bounded(e, o, home, all) by {
      ReadyBounded(c, o, rs, home, all, e);
    }
    match call
    case Pump(endings) => PumpBounded(c, o, rs, home, all, e, endings);
    case Crash(scans, runs, torn) => CrashBounded(c, o, rs, home, all, e, scans, runs, torn);
    case CrashInReports(endings) => PumpBounded(c, o, rs, home, all, e, endings);
    case Cancel(id, drops) => CancelBounded(e, o, home, all, id, drops);
    case Restart(r) =>
      CancelBounded(e, o, home, all, r.id, Some(r.name));
      PreparedBounded(Withdrawn(e, r.id, Some(r.name)), o, home, all, r);
    case Enqueue(r) => PreparedBounded(e, o, home, all, r);
    case Prepare(r) => PreparedBounded(e, o, home, all, r);
    case Pause(id) => GatesBounded(e, o, home, all, id);
    case Resume(id) => GatesBounded(e, o, home, all, id);
  }

  lemma ReadyBounded(c: Client, o: Origin, rs: set<Record>, home: Home, all: set<Record>, e: Engine)
    requires Ready(c, o, rs, home, all, e)
    ensures Bounded(e, o, home, all)
  {
    hide HonestClient, Sound, BytesTracked, Bounded, AllNumbered, NamesApart, Named;
  }

  lemma GatesBounded(e: Engine, o: Origin, home: Home, rs: set<Record>, id: Text)
    requires Bounded(e, o, home, rs)
    ensures Bounded(AfterPause(e, id), o, home, rs) && Bounded(AfterResume(e, id), o, home, rs)
  {
    hide Bounded;
    SameFileSizes(e, AfterPause(e, id));
    SameFileSizes(e, AfterResume(e, id));
    BoundedFrame(e, AfterPause(e, id), o, home, rs);
    BoundedFrame(e, AfterResume(e, id), o, home, rs);
  }

  lemma {:induction false} RunIsBounded(c: Client, o: Origin, home: Home, calls: seq<Call>, all: set<Record>)
    requires HonestClient(c, o) && NumberedCalls(calls) && AllNumbered(all) && NamesApart(all)
    requires forall call | call in calls :: CallFits(o, home, call) && OpensOf(call, all)
    ensures Bounded(Run(c, calls), o, home, all)
  {
    hide HonestClient, Step, Sound, Resting, BytesTracked, Bounded, CallFits, CallNumbered, AllNumbered, NamesApart, Named, OpensOf;
    if calls == [] {
      NothingLong(o, home, all);
    } else {
      var before := calls[..|calls| - 1];
      NumberedPart(calls, |calls| - 1);
      RunIsBounded(c, o, home, before, all);
      RunIsTracked(c, o, before);
      RunIsSound(c, before);
      RunIsNamed(c, before, all);
      StepBounded(c, o, Records(before), home, all, Run(c, before), calls[|calls| - 1]);
    }
  }

  lemma NothingLong(o: Origin, home: Home, all: set<Record>)
    ensures Bounded(Empty(), o, home, all)
  {
    hide StagedPath;
  }

  lemma OpenedNumbered(calls: seq<Call>)
    requires NumberedCalls(calls)
    ensures AllNumbered(Opened(calls))
  {
    hide Numbered;
    forall r | r in Opened(calls)
      ensures Numbered(r.id)
    {
      var call :| call in calls && (call.Enqueue? || call.Prepare? || call.Restart?) && call.record == r;
      assert CallNumbered(call);
    }
  }

  /** So where a resource keeps its length, and no file name is a download's staged path, what is reported complete is the
      resource, with no check of the length needed. */
  lemma CompleteIsExactlyTheResource(c: Client, o: Origin, home: Home, calls: seq<Call>, k: nat)
    requires HonestClient(c, o) && NumberedCalls(calls) && NamesApart(Opened(calls)) && forall call | call in calls :: CallFits(o, home, call)
    requires k < |Run(c, calls).log| && Run(c, calls).log[k].Complete? && BegunRight(Run(c, calls).log, k)
    requires Run(c, calls).log[k].plan.metadata.total == home(Run(c, calls).log[k].plan.id)
    ensures Contents(Run(c, calls).log[k].staged) == Source(o, Run(c, calls).log[k].plan)
  {
    hide HonestClient, Run, Source, RecordsFit, BegunRight, NamesApart, CallFits, CallNumbered, FilesShort, AllNumbered;
    CompleteIsTheResource(c, o, calls, k);
    OpenedNumbered(calls);
    RunIsBounded(c, o, home, calls, Opened(calls));
    assert Short(home, Run(c, calls).log[k]);
  }
}
