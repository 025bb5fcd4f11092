/** Checkpoints and the files they were saved over: as long as every activation that restores progress finds the
    file the progress was saved over, and no commit takes the file of a running download, every byte counted as done has
    been fetched into the file it is counted in. */
module KeptFiles {
  import opened Bytes
  import opened Wrappers
  import opened DownloadPlan
  import opened DownloadCheckpoint
  import opened StagedPaths
  import opened HttpTransport
  import opened TransferScheduler
  import opened SchedulerInvariants
  import opened SchedulerTheorems
  import opened Provenance

  /** No activation restored progress over another file than the one it was saved over. */
  ghost predicate AllKept(log: seq<Event>) {
    forall k | 0 <= k < |log| && log[k].Activated? :: log[k].kept
  }

  ghost predicate BegunBacked(log: seq<Event>) {
    forall k | 0 <= k < |log| && log[k].Activated? :: Backed(log[k].plan, log[k].found)
  }

  /** And no commit took the file of a download that was running. */
  ghost predicate Undisturbed(e: Engine) {
    AllKept(e.log) && e.taken == {}
  }

  ghost predicate CheckpointBacked(e: Engine, id: Text)
    requires id in e.checkpoints && id in e.over
  {
    Backed(PlanOf(e.checkpoints[id]), FileAt(e, StagedPath(e.over[id], id)))
  }

  /** The checkpoint of an active download is of the version being fetched, over the file it is fetched into. */
  ghost predicate ActiveSaved(e: Engine, a: Active) {
    var id := a.record.id;
    && id in e.checkpoints && id in e.over && e.over[id] == NameOf(e, id)
    && VersionOf(PlanOf(e.checkpoints[id])) == VersionOf(a.plan)
  }

  ghost predicate SavesBacked(e: Engine) {
    && (forall id | id in e.over :: Numbered(id))
    && (forall id | id in e.checkpoints && id in e.over :: CheckpointBacked(e, id))
    && BegunBacked(e.log)
  }

  ghost predicate FilesKept(e: Engine) {
    SavesBacked(e) && forall i | 0 <= i < |e.active| :: ActiveSaved(e, e.active[i])
  }

  lemma KeptEarlier(log: seq<Event>, longer: seq<Event>)
    requires log <= longer && AllKept(longer)
    ensures AllKept(log)
  {
    forall k | 0 <= k < |log| && log[k].Activated?
      ensures log[k].kept
    {
      assert longer[k] == log[k];
    }
  }

  lemma SavedBacked(p: Plan, file: seq<Cell>)
    ensures Backed(PlanOf(CheckpointOf(p)), file) <==> Backed(p, file)
    ensures VersionOf(PlanOf(CheckpointOf(p))) == VersionOf(p)
  {
  }

  /** What activation starts from is backed, if the file it finds is the one its progress was saved over. */
  lemma StartBacked(e: Engine, r: Record, m: Metadata)
    requires Sound(e) && FilesKept(e) && m.total > 0 && Kept(e, NewPlan(r, m, MAX_SEGMENTS))
    ensures Backed(RestoredPlan(e.checkpoints, NewPlan(r, m, MAX_SEGMENTS)), StagedFile(e, r.id))
  {
    hide Underway, RestoredPlan, ActiveSound, DistinctIds, Layout, BegunBacked, ActiveSaved, SegmentCount, StagedPath, Numbered;
    RestoredPlanIs(e.checkpoints, r, m);
    PlanIsFair(r, m, MAX_SEGMENTS);
    var blank := NewPlan(r, m, MAX_SEGMENTS);
    var p := RestoredPlan(e.checkpoints, blank);
    if p == blank {
      forall i | 0 <= i < |p.segments|
        ensures p.segments[i].done == 0
      {
        assert p.segments[i] in blank.segments;
      }
    } else {
      assert CheckpointBacked(e, r.id);
    }
  }

  lemma BegunLater(log: seq<Event>, longer: seq<Event>)
    requires BegunBacked(log) && Quietly(log, longer)
    ensures BegunBacked(longer)
  {
    hide Backed;
    forall k | 0 <= k < |longer| && longer[k].Activated?
      ensures Backed(longer[k].plan, longer[k].found)
    {
      assert k < |log| && log[k] == longer[k];
    }
  }

  /** A checkpoint is saved over a file in which its plan is backed. */
  lemma CheckpointedKept(e: Engine, p: Plan)
    requires p.id != [] && Numbered(p.id) && Backed(p, StagedFile(e, p.id)) && BegunBacked(e.log)
    requires forall id | id in e.over :: Numbered(id)
    requires forall id | id in e.checkpoints && id in e.over && id != p.id :: CheckpointBacked(e, id)
    requires forall i | 0 <= i < |e.active| && e.active[i].record.id != p.id :: ActiveSaved(e, e.active[i])
    requires forall i | 0 <= i < |e.active| && e.active[i].record.id == p.id :: VersionOf(e.active[i].plan) == VersionOf(p)
    ensures FilesKept(Checkpointed(e, p))
  {
    hide Backed, BegunBacked, StagedPath, Numbered;
    var f := Checkpointed(e, p);
    SavedBacked(p, StagedFile(e, p.id));
    BegunLater(e.log, f.log);
    forall id | id in f.checkpoints && id in f.over
      ensures CheckpointBacked(f, id)
    {
      if id != p.id {
        assert CheckpointBacked(e, id);
      }
    }
    forall i | 0 <= i < |f.active|
      ensures ActiveSaved(f, f.active[i])
    {
      if f.active[i].record.id != p.id {
        assert ActiveSaved(e, e.active[i]);
      }
    }
  }

  lemma StartKept(e: Engine, r: Record, m: Metadata)
    requires Sound(e) && FilesKept(e) && m.total > 0 && r.id != [] && Numbered(r.id) && !IsActive(e, r.id) && AllKept(Started(e, r, m).log)
    ensures FilesKept(Started(e, r, m))
  {
    hide Sound, RestoredPlan, NewPlan, Kept, Checkpointed, StagedFile, Backed, BegunBacked, CheckpointBacked, ActiveSaved, Numbered, NameOf;
    var blank := NewPlan(r, m, MAX_SEGMENTS);
    var p := RestoredPlan(e.checkpoints, blank);
    RestoredHead(e, r, m);
    var begun := e.(active := e.active + [Active(r, p, false, false, 0, |e.log|)], bases := e.bases[r.id := Basis(p, StagedFile(e, r.id))],
                    log := e.log + [Activated(p, StagedFile(e, r.id), Kept(e, blank))]);
    assert Started(e, r, m) == Checkpointed(begun, p);
    CheckpointedLog(begun, p);
    assert Started(e, r, m).log[|e.log|] == begun.log[|e.log|];
    StartBacked(e, r, m);
    StagedKept(e, begun);
    BegunOne(e.log, begun.log);
    SameKept(e, begun, r.id);
    CheckpointedKept(begun, p);
  }

  lemma CheckpointedLog(e: Engine, p: Plan)
    ensures Checkpointed(e, p).log == e.log + [Progress(p)]
  {
  }

  lemma BegunOne(log: seq<Event>, longer: seq<Event>)
    requires BegunBacked(log) && |longer| == |log| + 1 && log <= longer
    requires longer[|log|].Activated? && Backed(longer[|log|].plan, longer[|log|].found)
    ensures BegunBacked(longer)
  {
    hide Backed;
    forall k | 0 <= k < |longer| && longer[k].Activated?
      ensures Backed(longer[k].plan, longer[k].found)
    {
      assert k < |log| ==> log[k] == longer[k];
    }
  }

  /** Checkpoints and files as they were, and only this download newly active. */
  lemma SameKept(e: Engine, f: Engine, id: Text)
    requires FilesKept(e) && f.files == e.files && f.names == e.names && f.checkpoints == e.checkpoints && f.over == e.over
    requires forall i | 0 <= i < |f.active| && f.active[i].record.id != id :: f.active[i] in e.active
    ensures forall x | x in f.over :: Numbered(x)
    ensures forall x | x in f.checkpoints && x in f.over && x != id :: CheckpointBacked(f, x)
    ensures forall i | 0 <= i < |f.active| && f.active[i].record.id != id :: ActiveSaved(f, f.active[i])
  {
    hide Backed, BegunBacked, StagedPath, Numbered;
    forall x | x in f.checkpoints && x in f.over && x != id
      ensures CheckpointBacked(f, x)
    {
      assert CheckpointBacked(e, x);
    }
    forall i | 0 <= i < |f.active| && f.active[i].record.id != id
      ensures ActiveSaved(f, f.active[i])
    {
      var j :| 0 <= j < |e.active| && e.active[j] == f.active[i];
      assert ActiveSaved(e, e.active[j]);
    }
  }

  /** Files, names and checkpoints as they were, the active downloads no more, and the log quietly longer. */
  lemma QuietlyKept(e: Engine, f: Engine)
    requires FilesKept(e) && Quietly(e.log, f.log) && f.files == e.files && f.names == e.names
    requires f.checkpoints == e.checkpoints && f.over == e.over
    requires forall a | a in f.active :: a in e.active
    ensures FilesKept(f)
  {
    hide CheckpointBacked, ActiveSaved, BegunBacked, StagedPath, Numbered;
    BegunLater(e.log, f.log);
    forall id | id in f.checkpoints && id in f.over
      ensures CheckpointBacked(f, id)
    {
      SameCheckpoint(e, f, id);
    }
    forall i | 0 <= i < |f.active|
      ensures ActiveSaved(f, f.active[i])
    {
      assert f.active[i] in f.active;
      var j :| 0 <= j < |e.active| && e.active[j] == f.active[i];
      ActiveIsSaved(e, e.active[j]);
      SameSaved(e, f, e.active[j]);
    }
  }

  lemma SameCheckpoint(e: Engine, f: Engine, id: Text)
    requires id in e.checkpoints && id in e.over && CheckpointBacked(e, id)
    requires id in f.checkpoints && f.checkpoints[id] == e.checkpoints[id] && id in f.over && f.over[id] == e.over[id]
    requires FileAt(f, StagedPath(e.over[id], id)) == FileAt(e, StagedPath(e.over[id], id))
    ensures CheckpointBacked(f, id)
  {
    hide Backed, StagedPath;
  }

  lemma SameSaved(e: Engine, f: Engine, a: Active)
    requires ActiveSaved(e, a) && NameOf(f, a.record.id) == NameOf(e, a.record.id)
    requires a.record.id in f.checkpoints && f.checkpoints[a.record.id] == e.checkpoints[a.record.id]
    requires a.record.id in f.over && f.over[a.record.id] == e.over[a.record.id]
    ensures ActiveSaved(f, a)
  {
  }

  lemma ActivateOneKept(c: Client, e: Engine)
    requires Sound(e) && FilesKept(e) && e.pending != [] && Numbered(e.pending[0].id) && AllKept(ActivateOne(c, e).log)
    ensures FilesKept(ActivateOne(c, e))
  {
    hide Started, NewPlan, Sound, Inspected, FilesKept, Numbered;
    var r, rest := e.pending[0], e.(pending := e.pending[1..]);
    var m := Inspected(c.inspect(e.calls, r.url, r.referrer));
    var asked := rest.(calls := e.calls + 1, log := e.log + [Described(r, m)]);
    FrontTaken(e);
    SoundFrame(rest, asked);
    QuietlyKept(e, asked);
    if r.id !in e.cancelled && r.id !in e.paused && m.Some? && NewPlan(r, m.value, MAX_SEGMENTS).segments != [] {
      SegmentsMeanBytes(r, m.value);
      SameActive(asked, rest, r.id);
      StartKept(asked, r, m.value);
    } else {
      QuietlyKept(e, ActivateOne(c, e));
    }
  }

  lemma FirstNumbered(c: Client, o: Origin, rs: set<Record>, e: Engine)
    requires BytesTracked(c, o, rs, e) && e.pending != []
    ensures Numbered(e.pending[0].id)
  {
    hide Numbered, LogTraced, FilesRendered, ActiveTraced;
    assert e.pending[0] in e.pending;
  }

  lemma {:induction false} ActivationKept(c: Client, o: Origin, rs: set<Record>, e: Engine, scans: nat)
    requires HonestClient(c, o) && Sound(e) && BytesTracked(c, o, rs, e) && FilesKept(e) && AllKept(ActivateUpTo(c, e, scans).log)
    ensures FilesKept(ActivateUpTo(c, e, scans))
    decreases scans
  {
    hide HonestClient, Sound, BytesTracked, FilesKept, ActivateOne, AllKept, Numbered;
    if |e.active| < MAX_ACTIVE && e.pending != [] && scans > 0 {
      ActivationOpen(c, ActivateOne(c, e), scans - 1);
      KeptEarlier(ActivateOne(c, e).log, ActivateUpTo(c, e, scans).log);
      FirstNumbered(c, o, rs, e);
      ActivateOneKept(c, e);
      ActivateOneKeeps(c, e);
      ActivateOneTracks(c, o, rs, e);
      ActivationKept(c, o, rs, ActivateOne(c, e), scans - 1);
    }
  }

  // One transfer.

  lemma FetchedBacked(o: Origin, v: Version, s: Segment, n: nat, before: seq<Cell>, after: seq<Cell>, p: Plan)
    requires Fetches(o, v, s, n, before, after) && VersionOf(p) == v && Backed(p, before)
    ensures Backed(p, after)
  {
    hide Rendered;
    forall i | 0 <= i < |p.segments|
      ensures FromOver(v, after, p.segments[i].begin, p.segments[i].begin as int + p.segments[i].done as int)
    {
      assert FromOver(v, before, p.segments[i].begin, p.segments[i].begin as int + p.segments[i].done as int);
    }
  }

  /** Streaming spoils nothing that a checkpoint counts. */
  lemma StreamingKept(c: Client, o: Origin, rs: set<Record>, e: Engine, i: nat, k: nat)
    requires HonestClient(c, o) && Sound(e) && BytesTracked(c, o, rs, e) && FilesKept(e) && i < |e.active|
    requires k < |e.active[i].plan.segments| && !e.active[i].plan.segments[k].finished
    ensures FilesKept(AfterStreaming(c, e, i, k))
  {
    hide HonestClient, Sound, BytesTracked, BegunBacked, FilesAfter, AfterResult, ResultOf, ActiveSaved, CheckpointBacked, Numbered;
    var a, f := e.active[i], AfterStreaming(c, e, i, k);
    BegunLater(e.log, f.log);
    forall id | id in f.checkpoints && id in f.over
      ensures CheckpointBacked(f, id)
    {
      if id == a.record.id {
        StreamedCheckpoint(c, o, rs, e, i, k);
      } else {
        ActiveNumbered(c, o, rs, e, a);
        OtherCheckpoint(c, e, i, k, id);
      }
    }
    forall j | 0 <= j < |f.active|
      ensures ActiveSaved(f, f.active[j])
    {
      assert ActiveSaved(e, e.active[j]);
      ActiveIsSaved(e, e.active[j]);
      SameSaved(e, f, e.active[j]);
    }
  }

  lemma StreamedCheckpoint(c: Client, o: Origin, rs: set<Record>, e: Engine, i: nat, k: nat)
    requires HonestClient(c, o) && Sound(e) && BytesTracked(c, o, rs, e) && i < |e.active| && ActiveSaved(e, e.active[i])
    requires k < |e.active[i].plan.segments| && !e.active[i].plan.segments[k].finished
    requires CheckpointBacked(e, e.active[i].record.id)
    ensures CheckpointBacked(AfterStreaming(c, e, i, k), e.active[i].record.id)
  {
    hide HonestClient, Sound, FilesRendered, LogTraced, ActiveTraced, Backed, FilesAfter, AfterResult, ResultOf, Fetches, FileAt, StagedPath, AllNumbered;
    var a := e.active[i];
    OneSound(e, i);
    ResultTraces(c, o, rs, e, i, k);
    FetchedBacked(o, VersionOf(a.plan), a.plan.segments[k], AfterResult(a, k, ResultAt(c, e, i, k)).plan.segments[k].done as int - a.plan.segments[k].done as int,
                  StagedFile(e, a.record.id), StagedFile(AfterStreaming(c, e, i, k), a.record.id), PlanOf(e.checkpoints[a.record.id]));
  }

  lemma OtherCheckpoint(c: Client, e: Engine, i: nat, k: nat, id: Text)
    requires i < |e.active| && k < |e.active[i].plan.segments| && id in e.checkpoints && id in e.over && CheckpointBacked(e, id)
    requires Numbered(id) && Numbered(e.active[i].record.id) && id != e.active[i].record.id
    ensures CheckpointBacked(AfterStreaming(c, e, i, k), id)
  {
    hide Backed, FilesAfter, FileAt, StagedPath, Numbered;
    PathsApart(e, e.over[id], id, e.active[i].record.id);
    OtherFiles(c, e, i, k, StagedPath(e.over[id], id));
  }

  lemma PathsApart(e: Engine, name: Text, id: Text, other: Text)
    requires Numbered(id) && Numbered(other) && id != other
    ensures StagedPath(name, id) != HomeOf(e, other)
  {
    hide StagedPath, Numbered;
    HomesApart(e, name, id, other);
  }

  /** What an activation that began backed has done so far is backed, if nothing took its file. */
  lemma TracedIsBacked(c: Client, o: Origin, rs: set<Record>, e: Engine, a: Active)
    requires ActiveTraced(c, o, rs, e, a) && BegunBacked(e.log) && e.taken == {}
    ensures Backed(a.plan, StagedFile(e, a.record.id))
  {
    hide Traced, Backed, StagedFile, Sized, AskedFor, Answered;
    var basis := e.bases[a.record.id];
    assert Backed(basis.plan, basis.found);
    TracedBacked(basis.plan, basis.found, a.plan, StagedFile(e, a.record.id));
  }

  lemma NotedKept(c: Client, o: Origin, rs: set<Record>, e: Engine, i: nat, a: Active)
    requires Sound(e) && FilesKept(e) && i < |e.active| && ActiveTraced(c, o, rs, e, a) && AllNumbered(rs) && e.taken == {}
    requires a.record == e.active[i].record && a.plan.id == a.record.id && a.record.id != []
    requires VersionOf(a.plan) == VersionOf(e.active[i].plan)
    ensures FilesKept(Noted(e, i, a))
  {
    hide ActiveTraced, Backed, BegunBacked, CheckpointBacked, ActiveSaved, Checkpointed, ActiveSound, Genuine, StagedFile, Numbered, AllNumbered, HomeOf;
    TracedIsBacked(c, o, rs, e, a);
    TracedBase(c, o, rs, e, a);
    NumberedIn(rs, a.record);
    var g := e.(active := e.active[i := a]);
    StagedKept(e, g);
    forall j | 0 <= j < |g.active| && g.active[j].record.id != a.record.id
      ensures g.active[j] in e.active
    {
      assert g.active[j] == e.active[j];
    }
    SameKept(e, g, a.record.id);
    SoundIds(e);
    CheckpointedKept(g, a.plan);
  }

  lemma RunOneKept(c: Client, o: Origin, rs: set<Record>, e: Engine, i: nat)
    requires HonestClient(c, o) && Sound(e) && BytesTracked(c, o, rs, e) && FilesKept(e) && i < |e.active| && e.taken == {}
    ensures FilesKept(RunOne(c, e, i)) && RunOne(c, e, i).taken == {}
  {
    hide HonestClient, Sound, FilesRendered, LogTraced, ActiveTraced, AfterResult, AfterStreaming, ResultOf, Noted, FilesKept, AllNumbered;
    RunOneTakes(c, e, i);
    if !Skipped(e, i) {
      var a := e.active[i];
      var k := FirstUnfinished(a.plan.segments);
      OneSound(e, i);
      ActiveUnderway(a);
      if k == |a.plan.segments| {
        FinishedTraced(c, o, rs, e, a);
        NotedKept(c, o, rs, e, i, a.(finished := true));
      } else {
        ResultShape(a, k, ResultAt(c, e, i, k));
        StreamingTracks(c, o, rs, e, i, k);
        StreamingKept(c, o, rs, e, i, k);
        StreamedActive(c, e, i, k);
        SoundFrame(e, AfterStreaming(c, e, i, k));
        NotedKept(c, o, rs, AfterStreaming(c, e, i, k), i, AfterResult(a, k, ResultAt(c, e, i, k)));
      }
    }
  }

  lemma RunOneTakes(c: Client, e: Engine, i: nat)
    requires i < |e.active|
    ensures RunOne(c, e, i).taken == e.taken
  {
    hide AfterResult, FilesAfter, ResultAt, Saved, NameOf;
  }

  lemma StreamedActive(c: Client, e: Engine, i: nat, k: nat)
    requires i < |e.active| && k < |e.active[i].plan.segments|
    ensures var f := AfterStreaming(c, e, i, k); f == e.(files := f.files, calls := f.calls, log := f.log)
    ensures Quietly(e.log, AfterStreaming(c, e, i, k).log)
  {
    hide FilesAfter;
  }

  lemma {:induction false} RunKept(c: Client, o: Origin, rs: set<Record>, e: Engine, n: nat)
    requires HonestClient(c, o) && Sound(e) && BytesTracked(c, o, rs, e) && FilesKept(e) && n <= |e.active| && e.taken == {}
    ensures FilesKept(RunUpTo(c, e, n)) && RunUpTo(c, e, n).taken == {}
  {
    hide HonestClient, Sound, BytesTracked, FilesKept, RunOne;
    if n > 0 {
      RunKept(c, o, rs, e, n - 1);
      RunKeeps(c, e, n - 1);
      RunTracks(c, o, rs, e, n - 1);
      RunOneKept(c, o, rs, RunUpTo(c, e, n - 1), n - 1);
    }
  }

  // The reports.

  /** In the middle of the reports: every download that is not yet reported, or not finished, has its checkpoint. */
  ghost predicate HalfKept(e: Engine, n: nat) {
    SavesBacked(e) && forall i | 0 <= i < |e.active| && (i >= n || !e.active[i].finished) :: ActiveSaved(e, e.active[i])
  }

  lemma LogAside(e: Engine, f: Engine, n: nat)
    requires HalfKept(e, n) && f == e.(completed := f.completed, failed := f.failed, log := f.log) && BegunBacked(f.log)
    ensures HalfKept(f, n)
  {
    hide BegunBacked, StagedPath, Numbered, ActiveSaved, CheckpointBacked;
    forall id | id in f.checkpoints && id in f.over
      ensures CheckpointBacked(f, id)
    {
      SameCheckpoint(e, f, id);
    }
    forall i | 0 <= i < |f.active| && (i >= n || !f.active[i].finished)
      ensures ActiveSaved(f, f.active[i])
    {
      ActiveIsSaved(e, e.active[i]);
      SameName(e, f, e.active[i].record.id);
      SameSaved(e, f, e.active[i]);
    }
  }

  /** Files that no checkpoint is over may change, and checkpoints may be forgotten or left without a file. */
  lemma FilesAside(e: Engine, f: Engine, m: nat, n: nat)
    requires HalfKept(e, m) && f.active == e.active && f.log == e.log && f.names == e.names && m <= n
    requires forall id | id in f.checkpoints :: id in e.checkpoints && f.checkpoints[id] == e.checkpoints[id]
    requires forall id | id in f.over :: id in e.over && f.over[id] == e.over[id]
    requires forall id | id in f.over :: FileAt(f, StagedPath(e.over[id], id)) == FileAt(e, StagedPath(e.over[id], id))
    requires forall i | 0 <= i < |e.active| && (i >= n || !e.active[i].finished) :: e.active[i].record.id in f.checkpoints && e.active[i].record.id in f.over
    ensures HalfKept(f, n)
  {
    hide CheckpointBacked, ActiveSaved, BegunBacked, FileAt, StagedPath, Numbered;
    forall id | id in f.checkpoints && id in f.over
      ensures CheckpointBacked(f, id)
    {
      SameCheckpoint(e, f, id);
    }
    forall i | 0 <= i < |f.active| && (i >= n || !f.active[i].finished)
      ensures ActiveSaved(f, f.active[i])
    {
      ActiveIsSaved(e, e.active[i]);
      SameName(e, f, e.active[i].record.id);
      SameSaved(e, f, e.active[i]);
    }
  }

  lemma SameName(e: Engine, f: Engine, id: Text)
    requires f.names == e.names
    ensures NameOf(f, id) == NameOf(e, id) && HomeOf(f, id) == HomeOf(e, id)
  {
  }

  /** A commit that took nobody's file left every running download its checkpoint. */
  lemma PutAside(e: Engine, path: Path, file: Option<seq<Cell>>, n: nat)
    requires HalfKept(e, n) && Put(e, path, file).taken == {}
    ensures HalfKept(Put(e, path, file), n)
  {
    hide SavesBacked, ActiveSaved, StagedPath, Numbered, Rebased;
    var f := Put(e, path, file);
    forall i | 0 <= i < |e.active| && (i >= n || !e.active[i].finished)
      ensures e.active[i].record.id in f.checkpoints && e.active[i].record.id in f.over
    {
      ActiveIsSaved(e, e.active[i]);
      SavedName(e, e.active[i]);
      assert e.active[i].record.id !in StagedAt(e, e.active, path);
    }
    hide HalfKept;
    FilesAside(e, f, n, n);
  }

  lemma SavedName(e: Engine, a: Active)
    requires ActiveSaved(e, a)
    ensures StagedPath(e.over[a.record.id], a.record.id) == HomeOf(e, a.record.id)
  {
    hide StagedPath;
  }

  /** A finished download lets go of its own file and checkpoint. */
  lemma GoneAside(e: Engine, f: Engine, n: nat)
    requires Sound(e) && n < |e.active| && HalfKept(e, n) && Numbered(e.active[n].record.id) && e.active[n].finished
    requires f == Dropped(e, HomeOf(e, e.active[n].record.id)) || f == Forgot(e, e.active[n].record.id) || f == e
    ensures HalfKept(f, n + 1)
  {
    hide Sound, SavesBacked, ActiveSaved, StagedPath, Numbered;
    var id := e.active[n].record.id;
    SoundIds(e);
    OverIsNumbered(e, n);
    forall x | x in e.over && x != id
      ensures StagedPath(e.over[x], x) != HomeOf(e, id)
    {
      PathsApart(e, e.over[x], x, id);
    }
    forall i | 0 <= i < |e.active| && (i >= n + 1 || !e.active[i].finished)
      ensures e.active[i].record.id in f.checkpoints && e.active[i].record.id in f.over
    {
      ActiveIsSaved(e, e.active[i]);
    }
    hide HalfKept;
    FilesAside(e, f, n, n + 1);
  }

  lemma OverIsNumbered(e: Engine, n: nat)
    requires HalfKept(e, n)
    ensures forall id | id in e.over :: Numbered(id)
  {
    hide Numbered, CheckpointBacked, BegunBacked;
  }

  lemma CommitAside(e: Engine, n: nat, commit: Commit)
    requires Sound(e) && n < |e.active| && HalfKept(e, n) && Numbered(e.active[n].record.id) && e.active[n].finished
    requires AfterCommit(e, e.active[n].record.id, commit).taken == {}
    ensures HalfKept(AfterCommit(e, e.active[n].record.id, commit), n + 1)
  {
    hide Sound, HalfKept, Put, Dropped, Numbered, HomeOf, NameOf, StagedFile, FileAt, Writable;
    var id := e.active[n].record.id;
    GoneAside(e, e, n);
    GoneAside(e, Dropped(e, HomeOf(e, id)), n);
    if Writable(e.files, e.names, id) && commit.Cleared? && NameOf(e, id) in e.files {
      PutAside(e, NameOf(e, id), None, n + 1);
    } else if Writable(e.files, e.names, id) && commit.Renamed? {
      PutAside(Dropped(e, HomeOf(e, id)), NameOf(e, id), Some(StagedFile(e, id)), n + 1);
    }
  }

  lemma FinishAside(e: Engine, n: nat, ending: Ending)
    requires Sound(e) && n < |e.active| && HalfKept(e, n) && Numbered(e.active[n].record.id) && e.active[n].finished
    requires Finish(e, e.active[n].record.id, ending).taken == {}
    ensures HalfKept(Finish(e, e.active[n].record.id, ending), n + 1)
  {
    hide Sound, SavesBacked, ActiveSaved, AfterCommit, Numbered;
    var id := e.active[n].record.id;
    var f := AfterCommit(e, id, ending.commit);
    SoundIds(e);
    FinishKeepsLists(e, id, Ending(ending.commit, false));
    CommitAside(e, n, ending.commit);
    if ending.forgets {
      var g := Forgot(f, id);
      forall i | 0 <= i < |f.active| && (i >= n + 1 || !f.active[i].finished)
        ensures f.active[i].record.id in g.checkpoints && f.active[i].record.id in g.over
      {
        ActiveIsSaved(f, f.active[i]);
      }
      hide HalfKept;
      FilesAside(f, g, n + 1, n + 1);
    }
  }

  lemma BegunReports(log: seq<Event>, longer: seq<Event>)
    requires BegunBacked(log) && log <= longer && forall k | |log| <= k < |longer| :: !longer[k].Activated?
    ensures BegunBacked(longer)
  {
    hide Backed;
    forall k | 0 <= k < |longer| && longer[k].Activated?
      ensures Backed(longer[k].plan, longer[k].found)
    {
      assert log[k] == longer[k];
    }
  }

  lemma HalfBegun(e: Engine, n: nat)
    requires HalfKept(e, n)
    ensures BegunBacked(e.log)
  {
    hide CheckpointBacked, ActiveSaved, BegunBacked, Numbered;
  }

  lemma OneOn(e: Engine, n: nat)
    requires n < |e.active| && !e.active[n].finished && HalfKept(e, n)
    ensures HalfKept(e, n + 1)
  {
    hide SavesBacked, ActiveSaved;
  }

  lemma NotedNow(e: Engine, a: Active)
    ensures var f := NotedComplete(e, a); f == e.(completed := f.completed, log := f.log) && e.log <= f.log
    ensures forall k | |e.log| <= k < |NotedComplete(e, a).log| :: !NotedComplete(e, a).log[k].Activated?
  {
    hide StagedFile, BasisOf;
  }

  lemma ReportOneKept(e: Engine, n: nat, ending: Ending)
    requires Sound(e) && n < |e.active| && HalfKept(e, n) && Numbered(e.active[n].record.id)
    requires ReportOne(e, e.active[n], ending).taken == {}
    ensures HalfKept(ReportOne(e, e.active[n], ending), n + 1)
  {
    hide Sound, HalfKept, Finish, NotedComplete, Numbered, BegunBacked;
    var a := e.active[n];
    var first := if a.finished then Finish(NotedComplete(e, a), a.record.id, ending) else e;
    HalfBegun(e, n);
    if a.finished {
      var noted := NotedComplete(e, a);
      NotedNow(e, a);
      BegunReports(e.log, noted.log);
      LogAside(e, noted, n);
      SoundFrame(e, noted);
      FinishAside(noted, n, ending);
    } else {
      OneOn(e, n);
    }
    HalfBegun(first, n + 1);
    BegunReports(first.log, ReportOne(e, a, ending).log);
    LogAside(first, ReportOne(e, a, ending), n + 1);
  }

  lemma ReportOneTakes(e: Engine, a: Active, ending: Ending)
    ensures e.taken <= ReportOne(e, a, ending).taken
  {
    hide Finish, NotedComplete;
    FinishTakes(NotedComplete(e, a), a.record.id, ending);
    NotedNow(e, a);
  }

  lemma {:induction false} ReportsTake(e: Engine, endings: seq<Ending>, n: nat)
    requires n <= |e.active|
    ensures e.taken <= ReportUpTo(e, endings, n).taken
  {
    hide ReportOne, EndingAt;
    if n > 0 {
      ReportsTake(e, endings, n - 1);
      ReportOneTakes(ReportUpTo(e, endings, n - 1), e.active[n - 1], EndingAt(endings, n - 1));
    }
  }

  lemma {:induction false} ReportsKept(e: Engine, endings: seq<Ending>, n: nat)
    requires Sound(e) && FilesKept(e) && n <= |e.active| && ReportUpTo(e, endings, n).taken == {}
    requires forall a | a in e.active :: Numbered(a.record.id)
    ensures HalfKept(ReportUpTo(e, endings, n), n)
  {
    hide Sound, SavesBacked, ActiveSaved, ReportOne, EndingAt, Numbered;
    if n > 0 {
      ReportOneTakes(ReportUpTo(e, endings, n - 1), e.active[n - 1], EndingAt(endings, n - 1));
      ReportsKept(e, endings, n - 1);
      ReportFrame(e, endings, n - 1);
      SoundFrame(e, ReportUpTo(e, endings, n - 1));
      ReportOneKept(ReportUpTo(e, endings, n - 1), n - 1, EndingAt(endings, n - 1));
    }
  }

  lemma SweptKept(e: Engine)
    requires HalfKept(e, |e.active|)
    ensures FilesKept(Swept(e))
  {
    hide SavesBacked, ActiveSaved, Settled;
    var f := Swept(e);
    SettledAre(e.cancelled, e.active);
    SameSaves(e, f);
    forall i | 0 <= i < |f.active|
      ensures ActiveSaved(f, f.active[i])
    {
      assert f.active[i] in f.active;
      var j :| 0 <= j < |e.active| && e.active[j] == f.active[i];
      ActiveIsSaved(e, e.active[j]);
      SameName(e, f, e.active[j].record.id);
      SameSaved(e, f, e.active[j]);
    }
  }

  lemma SameSaves(e: Engine, f: Engine)
    requires SavesBacked(e) && f.files == e.files && f.checkpoints == e.checkpoints && f.over == e.over && f.log == e.log
    ensures SavesBacked(f)
  {
    hide CheckpointBacked, BegunBacked, StagedPath, Numbered;
    forall id | id in f.checkpoints && id in f.over
      ensures CheckpointBacked(f, id)
    {
      SameCheckpoint(e, f, id);
    }
  }

  lemma WorkKept(c: Client, o: Origin, rs: set<Record>, e: Engine)
    requires HonestClient(c, o) && Sound(e) && BytesTracked(c, o, rs, e) && FilesKept(e) && AllKept(Worked(c, e).log) && e.taken == {}
    ensures FilesKept(Worked(c, e)) && Worked(c, e).taken == {}
  {
    hide HonestClient, Sound, BytesTracked, FilesKept, AllKept, ActivateUpTo, RunUpTo;
    var activated := ActivateUpTo(c, e, |e.pending|);
    RunOpen(c, activated, |activated.active|);
    KeptEarlier(activated.log, Worked(c, e).log);
    ActivationKept(c, o, rs, e, |e.pending|);
    ActivationTakes(c, e, |e.pending|);
    ActivationTracks(c, o, rs, e, |e.pending|);
    ActivationKeeps(c, e, |e.pending|);
    RunKept(c, o, rs, activated, |activated.active|);
  }

  lemma {:induction false} ActivationTakes(c: Client, e: Engine, scans: nat)
    ensures ActivateUpTo(c, e, scans).taken == e.taken
    decreases scans
  {
    hide ActivateOne;
    if |e.active| < MAX_ACTIVE && e.pending != [] && scans > 0 {
      ActivateOneMoves(c, e);
      ActivationTakes(c, ActivateOne(c, e), scans - 1);
    }
  }

  lemma AllNumberedActive(c: Client, o: Origin, rs: set<Record>, e: Engine)
    requires BytesTracked(c, o, rs, e)
    ensures forall a | a in e.active :: Numbered(a.record.id)
  {
    hide BytesTracked, Numbered;
    forall a | a in e.active
      ensures Numbered(a.record.id)
    {
      ActiveNumbered(c, o, rs, e, a);
    }
  }

  lemma UndisturbedEarlier(e: Engine, f: Engine)
    requires Undisturbed(f) && e.log <= f.log && e.taken <= f.taken
    ensures Undisturbed(e)
  {
    hide AllKept;
    KeptEarlier(e.log, f.log);
  }

  lemma PumpKept(c: Client, o: Origin, rs: set<Record>, e: Engine, endings: seq<Ending>)
    requires HonestClient(c, o) && Sound(e) && BytesTracked(c, o, rs, e) && FilesKept(e) && e.taken == {} && Undisturbed(AfterPump(c, e, endings))
    ensures FilesKept(AfterPump(c, e, endings))
  {
    hide HonestClient, Sound, BytesTracked, FilesKept, AllKept, Worked, ReportUpTo, Settled, HalfKept, Numbered;
    var worked := Worked(c, e);
    var reported := ReportUpTo(worked, endings, |worked.active|);
    ReportOpen(worked, endings, |worked.active|);
    ReportsTake(worked, endings, |worked.active|);
    KeptEarlier(worked.log, AfterPump(c, e, endings).log);
    WorkKept(c, o, rs, e);
    WorkKeeps(c, e);
    WorkTracks(c, o, rs, e);
    AllNumberedActive(c, o, rs, worked);
    ReportsKept(worked, endings, |worked.active|);
    SweptKept(reported);
  }

  lemma ReportsDoneKept(c: Client, o: Origin, rs: set<Record>, e: Engine, endings: seq<Ending>)
    requires HonestClient(c, o) && Sound(e) && BytesTracked(c, o, rs, e) && FilesKept(e) && e.taken == {} && Undisturbed(ReportsDone(c, e, endings))
    ensures FilesKept(Ended(ReportsDone(c, e, endings)))
  {
    hide HonestClient, Sound, BytesTracked, FilesKept, AllKept, Worked, ReportUpTo, HalfKept, Numbered, Ended;
    var worked := Worked(c, e);
    var n := Min(|endings|, |worked.active|);
    ReportOpen(worked, endings, n);
    ReportsTake(worked, endings, n);
    KeptEarlier(worked.log, ReportsDone(c, e, endings).log);
    WorkKept(c, o, rs, e);
    WorkKeeps(c, e);
    WorkTracks(c, o, rs, e);
    AllNumberedActive(c, o, rs, worked);
    ReportsKept(worked, endings, n);
    HalfSaves(ReportsDone(c, e, endings), n);
    EndedKept(ReportsDone(c, e, endings));
  }

  lemma HalfSaves(e: Engine, n: nat)
    requires HalfKept(e, n)
    ensures SavesBacked(e)
  {
  }

  /** What a crash leaves: files, checkpoints, and the log. */
  lemma EndedKept(e: Engine)
    requires SavesBacked(e)
    ensures FilesKept(Ended(e))
  {
    hide SavesBacked;
    SameSaves(e, Ended(e));
  }

  lemma KeptSaves(e: Engine)
    requires FilesKept(e)
    ensures SavesBacked(e)
  {
  }

  lemma CrashKept(c: Client, o: Origin, rs: set<Record>, e: Engine, scans: nat, runs: nat, torn: bool)
    requires HonestClient(c, o) && Sound(e) && BytesTracked(c, o, rs, e) && FilesKept(e) && e.taken == {}
    requires AllKept(Interrupted(c, e, scans, runs, torn).log)
    ensures FilesKept(Ended(Interrupted(c, e, scans, runs, torn)))
  {
    hide HonestClient, Sound, BytesTracked, FilesKept, AllKept, ActivateUpTo, RunUpTo, AfterStreaming, Ended;
    var activated := ActivateUpTo(c, e, Min(scans, |e.pending|));
    var n := Min(runs, |activated.active|);
    var ran := RunUpTo(c, activated, n);
    var f := Interrupted(c, e, scans, runs, torn);
    var streams := torn && n < |ran.active| && !Skipped(ran, n) && FirstUnfinished(ran.active[n].plan.segments) < |ran.active[n].plan.segments|;
    RunOpen(c, activated, n);
    if streams {
      StreamedActive(c, ran, n, FirstUnfinished(ran.active[n].plan.segments));
    }
    KeptEarlier(activated.log, f.log);
    ActivationKept(c, o, rs, e, Min(scans, |e.pending|));
    ActivationTakes(c, e, Min(scans, |e.pending|));
    ActivationTracks(c, o, rs, e, Min(scans, |e.pending|));
    ActivationKeeps(c, e, Min(scans, |e.pending|));
    RunKept(c, o, rs, activated, n);
    RunTracks(c, o, rs, activated, n);
    RunKeeps(c, activated, n);
    if streams {
      StreamingKept(c, o, rs, ran, n, FirstUnfinished(ran.active[n].plan.segments));
    }
    KeptSaves(f);
    EndedKept(f);
  }

  // The other calls.

  /** Checkpoints may be forgotten, and files that no checkpoint is over may change. */
  lemma FrameKept(e: Engine, f: Engine)
    requires FilesKept(e) && f.log == e.log
    requires forall id | id in f.checkpoints :: id in e.checkpoints && f.checkpoints[id] == e.checkpoints[id]
    requires forall id | id in f.over :: id in e.over && f.over[id] == e.over[id]
    requires forall id | id in f.checkpoints && id in f.over :: FileAt(f, StagedPath(e.over[id], id)) == FileAt(e, StagedPath(e.over[id], id))
    requires forall a | a in f.active ::
               && a in e.active && NameOf(f, a.record.id) == NameOf(e, a.record.id)
               && (a.record.id in e.checkpoints ==> a.record.id in f.checkpoints) && (a.record.id in e.over ==> a.record.id in f.over)
    ensures FilesKept(f)
  {
    hide CheckpointBacked, ActiveSaved, BegunBacked, FileAt, NameOf, StagedPath, Numbered;
    forall id | id in f.checkpoints && id in f.over
      ensures CheckpointBacked(f, id)
    {
      SameCheckpoint(e, f, id);
    }
    forall i | 0 <= i < |f.active|
      ensures ActiveSaved(f, f.active[i])
    {
      assert f.active[i] in f.active;
      var j :| 0 <= j < |e.active| && e.active[j] == f.active[i];
      ActiveIsSaved(e, e.active[j]);
      SameSaved(e, f, e.active[j]);
    }
  }

  lemma ActiveIsSaved(e: Engine, a: Active)
    requires ActiveSaved(e, a)
    ensures a.record.id in e.checkpoints && a.record.id in e.over
  {
  }

  lemma KeptOver(e: Engine)
    requires FilesKept(e)
    ensures forall id | id in e.over :: Numbered(id)
  {
    hide Numbered, CheckpointBacked, BegunBacked, ActiveSaved;
  }

  lemma CancelKept(e: Engine, id: Text, drops: Option<Text>)
    requires FilesKept(e) && Numbered(id)
    ensures FilesKept(Withdrawn(e, id, drops))
  {
    hide WithoutRecord, WithoutActive, FilesKept, StagedPath, Numbered;
    var f := Withdrawn(e, id, drops);
    WithoutActiveIs(e.active, id);
    KeptOver(e);
    forall x | x in e.over && x != id && drops.Some?
      ensures StagedPath(e.over[x], x) != StagedPath(drops.value, id)
    {
      OtherPath(e.over[x], x, drops.value, id);
    }
    FrameKept(e, f);
  }

  lemma OtherPath(a: Text, i: Text, b: Text, j: Text)
    requires Numbered(i) && Numbered(j) && i != j
    ensures StagedPath(a, i) != StagedPath(b, j)
  {
    hide StagedPath, Numbered;
    if StagedPath(a, i) == StagedPath(b, j) {
      StagedApart(a, i, b, j);
    }
  }

  lemma PreparedKept(e: Engine, r: Record)
    requires FilesKept(e) && forall a | a in e.active :: a.record.id != r.id
    ensures FilesKept(HasFile(e, r)) && FilesKept(AfterQueue(HasFile(e, r), r))
  {
    hide FilesKept, CanQueue, StagedPath;
    FrameKept(e, HasFile(e, r));
    FrameKept(e, AfterQueue(HasFile(e, r), r));
  }

  lemma StepKept(c: Client, o: Origin, rs: set<Record>, e: Engine, call: Call)
    requires HonestClient(c, o) && Sound(e) && BytesTracked(c, o, rs, e) && FilesKept(e) && CallNumbered(call)
    requires e.taken == {} && Undisturbed(Step(c, e, call))
    ensures FilesKept(Step(c, e, call))
  {
    hide HonestClient, Sound, BytesTracked, FilesKept, AllKept, AfterPump, Interrupted, ReportsDone, Withdrawn, AfterQueue, HasFile, CanQueue, Ended, IsPending, Numbered;
    match call
    case Enqueue(r) =>
      if CanQueue(e, r) {
        QueueableIsNew(e, r);
        PreparedKept(e, r);
      }
    case Prepare(r) =>
      InactiveElsewhere(e, r.id);
      if !IsPending(e, r.id) && !IsActive(e, r.id) {
        PreparedKept(e, r);
      }
    case Cancel(id, drops) => CancelKept(e, id, drops);
    case Restart(r) =>
      CancelKept(e, r.id, Some(r.name));
      CancelledInactive(e, r.id, Some(r.name));
      PreparedKept(Withdrawn(e, r.id, Some(r.name)), r);
    case Pump(endings) => PumpKept(c, o, rs, e, endings);
    case Crash(scans, runs, torn) =>
      EndedLog(Interrupted(c, e, scans, runs, torn));
      CrashKept(c, o, rs, e, scans, runs, torn);
    case CrashInReports(endings) =>
      EndedLog(ReportsDone(c, e, endings));
      ReportsDoneKept(c, o, rs, e, endings);
    case Pause(id) => FrameKept(e, AfterPause(e, id));
    case Resume(id) => FrameKept(e, AfterResume(e, id));
  }

  lemma EndedLog(e: Engine)
    ensures Ended(e).log == e.log && Ended(e).taken == e.taken
  {
  }

  lemma CancelledInactive(e: Engine, id: Text, drops: Option<Text>)
    ensures forall a | a in Withdrawn(e, id, drops).active :: a.record.id != id
  {
    hide WithoutRecord, WithoutActive, Off, StagedPath;
    WithoutActiveIs(e.active, id);
  }

  lemma CrashGrows(c: Client, e: Engine, scans: nat, runs: nat, torn: bool)
    ensures e.log <= Interrupted(c, e, scans, runs, torn).log && Interrupted(c, e, scans, runs, torn).taken == e.taken
  {
    hide ActivateUpTo, RunUpTo, AfterStreaming;
    var activated := ActivateUpTo(c, e, Min(scans, |e.pending|));
    var n := Min(runs, |activated.active|);
    ActivationOpen(c, e, Min(scans, |e.pending|));
    ActivationTakes(c, e, Min(scans, |e.pending|));
    RunOpen(c, activated, n);
    RunTakes(c, activated, n);
    var ran := RunUpTo(c, activated, n);
    if torn && n < |ran.active| && !Skipped(ran, n) && FirstUnfinished(ran.active[n].plan.segments) < |ran.active[n].plan.segments| {
      StreamedActive(c, ran, n, FirstUnfinished(ran.active[n].plan.segments));
    }
  }

  lemma {:induction false} RunTakes(c: Client, e: Engine, n: nat)
    requires n <= |e.active|
    ensures RunUpTo(c, e, n).taken == e.taken
  {
    hide RunOne;
    if n > 0 {
      RunTakes(c, e, n - 1);
      RunOneTakes(c, RunUpTo(c, e, n - 1), n - 1);
    }
  }

  lemma WorkTakes(c: Client, e: Engine)
    ensures Worked(c, e).taken == e.taken
  {
    hide ActivateUpTo, RunUpTo;
    ActivationTakes(c, e, |e.pending|);
    RunTakes(c, ActivateUpTo(c, e, |e.pending|), |ActivateUpTo(c, e, |e.pending|).active|);
  }

  lemma ReportsDoneGrow(c: Client, e: Engine, endings: seq<Ending>)
    ensures e.log <= ReportsDone(c, e, endings).log && e.taken <= ReportsDone(c, e, endings).taken
  {
    hide Worked, ReportUpTo;
    WorkTakes(c, e);
    WorkOpen(c, e);
    ReportOpen(Worked(c, e), endings, Min(|endings|, |Worked(c, e).active|));
    ReportsTake(Worked(c, e), endings, Min(|endings|, |Worked(c, e).active|));
  }

  lemma PumpGrows(c: Client, e: Engine, endings: seq<Ending>)
    ensures e.log <= AfterPump(c, e, endings).log && e.taken <= AfterPump(c, e, endings).taken
  {
    hide Worked, ReportUpTo, Settled;
    WorkTakes(c, e);
    PumpTransfersOnlyOpen(c, e, endings);
    ReportsTake(Worked(c, e), endings, |Worked(c, e).active|);
  }

  lemma StepGrows(c: Client, e: Engine, call: Call)
    ensures e.log <= Step(c, e, call).log && e.taken <= Step(c, e, call).taken
  {
    hide AfterPump, Interrupted, ReportsDone, CanQueue, IsPending, IsActive, Off, StagedPath;
    match call
    case Pump(endings) => PumpGrows(c, e, endings);
    case Crash(scans, runs, torn) => CrashGrows(c, e, scans, runs, torn);
    case CrashInReports(endings) => ReportsDoneGrow(c, e, endings);
    case _ =>
  }

  /** Over every run in which no activation found another file than the one its progress was saved over, and no commit
      took the file of a running download. */
  lemma {:induction false} RunIsKept(c: Client, o: Origin, calls: seq<Call>)
    requires HonestClient(c, o) && NumberedCalls(calls) && Undisturbed(Run(c, calls))
    ensures FilesKept(Run(c, calls))
  {
    hide HonestClient, Step, Sound, Resting, BytesTracked, FilesKept, AllKept, CallNumbered;
    if calls == [] {
      NothingKept();
    } else {
      var before, last := calls[..|calls| - 1], calls[|calls| - 1];
      StepGrows(c, Run(c, before), last);
      UndisturbedEarlier(Run(c, before), Run(c, calls));
      NumberedPart(calls, |calls| - 1);
      RunIsKept(c, o, before);
      RunIsSound(c, before);
      RunIsTracked(c, o, before);
      StepKept(c, o, Records(before), Run(c, before), last);
    }
  }

  lemma NothingKept()
    ensures FilesKept(Empty())
  {
  }
}
