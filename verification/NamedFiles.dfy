/** File names and staged paths: a commit takes the file of a running download only if some download's file name is
    another's staged path. */
module NamedFiles {
  import opened Bytes
  import opened Wrappers
  import opened DownloadPlan
  import opened DownloadCheckpoint
  import opened StagedPaths
  import opened HttpTransport
  import opened TransferScheduler
  import opened SchedulerInvariants
  import opened SchedulerTheorems
  import opened Provenance
  import opened KeptFiles

  /** The records whose files the calls open. */
  ghost function Opened(calls: seq<Call>): set<Record> {
    set call | call in calls && (call.Enqueue? || call.Prepare? || call.Restart?) :: call.record
  }

  /** No file name is the staged path of a download. */
  ghost predicate NamesApart(rs: set<Record>) {
    forall r, q | r in rs && q in rs :: r.name != StagedPath(q.name, q.id)
  }

  predicate NamedBy(e: Engine, id: Text, r: Record) {
    r.id == id && id in e.names && e.names[id] == r.name
  }

  ghost predicate IsNamed(rs: set<Record>, e: Engine, id: Text) {
    exists r | r in rs :: NamedBy(e, id, r)
  }

  /** The files opened are those of the records, and a listed download's file is opened. */
  ghost predicate Named(rs: set<Record>, e: Engine) {
    && (forall id | id in e.names :: IsNamed(rs, e, id))
    && (forall i | 0 <= i < |e.pending| :: e.pending[i].id in e.names)
    && (forall i | 0 <= i < |e.active| :: e.active[i].record.id in e.names)
  }

  /** The same names, and nobody listed anew. */
  lemma NamedFrame(rs: set<Record>, e: Engine, f: Engine)
    requires Named(rs, e) && f.names == e.names
    requires forall i | 0 <= i < |f.pending| :: f.pending[i] in e.pending
    requires forall i | 0 <= i < |f.active| :: f.active[i].record.id in e.names
    ensures Named(rs, f)
  {
    forall id | id in f.names
      ensures IsNamed(rs, f, id)
    {
      assert IsNamed(rs, e, id);
      var r :| r in rs && NamedBy(e, id, r);
      assert NamedBy(f, id, r);
    }
    hide IsNamed;
  }

  lemma NamedActivateOne(c: Client, rs: set<Record>, e: Engine)
    requires Named(rs, e) && e.pending != []
    ensures Named(rs, ActivateOne(c, e))
  {
    hide ActivateOne, IsNamed;
    ActivateOneMoves(c, e);
    NamedFrame(rs, e, ActivateOne(c, e));
  }

  lemma {:induction false} NamedActivation(c: Client, rs: set<Record>, e: Engine, scans: nat)
    requires Named(rs, e)
    ensures Named(rs, ActivateUpTo(c, e, scans))
    decreases scans
  {
    hide Named, ActivateOne;
    if |e.active| < MAX_ACTIVE && e.pending != [] && scans > 0 {
      NamedActivateOne(c, rs, e);
      NamedActivation(c, rs, ActivateOne(c, e), scans - 1);
    }
  }

  lemma NamedRunOne(c: Client, rs: set<Record>, e: Engine, i: nat)
    requires Named(rs, e) && Sound(e) && i < |e.active|
    ensures Named(rs, RunOne(c, e, i))
  {
    hide RunOne, Sound, IsNamed;
    RunOneKeeps(c, e, i);
    RunOneNames(c, e, i);
    NamedFrame(rs, e, RunOne(c, e, i));
  }

  lemma RunOneNames(c: Client, e: Engine, i: nat)
    requires i < |e.active|
    ensures RunOne(c, e, i).names == e.names
  {
    hide AfterResult, FilesAfter, ResultAt, Saved, NameOf;
  }

  lemma {:induction false} NamedRun(c: Client, rs: set<Record>, e: Engine, n: nat)
    requires Named(rs, e) && Sound(e) && n <= |e.active|
    ensures Named(rs, RunUpTo(c, e, n))
  {
    hide Named, Sound, RunOne;
    if n > 0 {
      NamedRun(c, rs, e, n - 1);
      RunKeeps(c, e, n - 1);
      NamedRunOne(c, rs, RunUpTo(c, e, n - 1), n - 1);
    }
  }

  lemma NamedWork(c: Client, rs: set<Record>, e: Engine)
    requires Named(rs, e) && Sound(e)
    ensures Named(rs, Worked(c, e)) && Sound(Worked(c, e))
  {
    hide Named, Sound, ActivateUpTo, RunUpTo;
    WorkKeeps(c, e);
    var activated := ActivateUpTo(c, e, |e.pending|);
    NamedActivation(c, rs, e, |e.pending|);
    ActivationKeeps(c, e, |e.pending|);
    NamedRun(c, rs, activated, |activated.active|);
  }

  lemma NamedReports(rs: set<Record>, e: Engine, endings: seq<Ending>, n: nat)
    requires Named(rs, e) && n <= |e.active|
    ensures Named(rs, ReportUpTo(e, endings, n))
  {
    hide ReportUpTo, IsNamed;
    ReportFrame(e, endings, n);
    NamedFrame(rs, e, ReportUpTo(e, endings, n));
  }

  lemma NamedSwept(rs: set<Record>, e: Engine)
    requires Named(rs, e)
    ensures Named(rs, Swept(e))
  {
    hide Settled, IsNamed;
    SettledAre(e.cancelled, e.active);
    forall i | 0 <= i < |Swept(e).active|
      ensures Swept(e).active[i].record.id in e.names
    {
      assert Swept(e).active[i] in e.active;
    }
    NamedFrame(rs, e, Swept(e));
  }

  lemma NamedEnded(rs: set<Record>, e: Engine)
    ensures Named(rs, Ended(e))
  {
  }

  lemma NamedCancelled(rs: set<Record>, e: Engine, id: Text, drops: Option<Text>)
    requires Named(rs, e)
    ensures Named(rs, Withdrawn(e, id, drops))
  {
    hide WithoutRecord, WithoutActive, IsNamed, Off, StagedPath;
    var f := Withdrawn(e, id, drops);
    WithoutRecordIs(e.pending, id);
    WithoutActiveIs(e.active, id);
    forall i | 0 <= i < |f.active|
      ensures f.active[i].record.id in e.names
    {
      assert f.active[i] in e.active;
    }
    NamedFrame(rs, e, f);
  }

  lemma NamedOpened(rs: set<Record>, e: Engine, r: Record)
    requires Named(rs, e) && r in rs
    ensures Named(rs, HasFile(e, r)) && Named(rs, AfterQueue(HasFile(e, r), r))
  {
    hide CanQueue, StagedPath;
    var f := HasFile(e, r);
    forall id | id in f.names
      ensures IsNamed(rs, f, id)
    {
      if id == r.id {
        assert NamedBy(f, id, r);
      } else {
        assert IsNamed(rs, e, id);
        var q :| q in rs && NamedBy(e, id, q);
        assert NamedBy(f, id, q);
      }
    }
    hide IsNamed;
    QueueNamed(rs, f, r);
  }

  lemma QueueNamed(rs: set<Record>, e: Engine, r: Record)
    requires Named(rs, e) && r.id in e.names
    ensures Named(rs, AfterQueue(e, r))
  {
    hide CanQueue;
    forall id | id in e.names
      ensures IsNamed(rs, AfterQueue(e, r), id)
    {
      assert IsNamed(rs, e, id);
      var q :| q in rs && NamedBy(e, id, q);
      assert NamedBy(AfterQueue(e, r), id, q);
    }
    hide IsNamed;
  }

  ghost predicate OpensOf(call: Call, rs: set<Record>) {
    (call.Enqueue? || call.Prepare? || call.Restart?) ==> call.record in rs
  }

  lemma NamedStep(c: Client, rs: set<Record>, e: Engine, call: Call)
    requires Named(rs, e) && Sound(e) && OpensOf(call, rs)
    ensures Named(rs, Step(c, e, call))
  {
    hide Named, Sound, AfterPump, Interrupted, ReportsDone, Withdrawn, HasFile, AfterQueue, CanQueue, IsPending, IsActive, Ended;
    match call
    case Enqueue(r) => NamedOpened(rs, e, r);
    case Prepare(r) => NamedOpened(rs, e, r);
    case Cancel(id, drops) => NamedCancelled(rs, e, id, drops);
    case Restart(r) =>
      NamedCancelled(rs, e, r.id, Some(r.name));
      NamedOpened(rs, Withdrawn(e, r.id, Some(r.name)), r);
    case Pump(endings) => NamedPump(c, rs, e, endings);
    case Crash(scans, runs, torn) => NamedEnded(rs, Interrupted(c, e, scans, runs, torn));
    case CrashInReports(endings) => NamedEnded(rs, ReportsDone(c, e, endings));
    case Pause(id) => NamedGates(rs, e, id);
    case Resume(id) => NamedGates(rs, e, id);
  }

  lemma NamedGates(rs: set<Record>, e: Engine, id: Text)
    requires Named(rs, e)
    ensures Named(rs, AfterPause(e, id)) && Named(rs, AfterResume(e, id))
  {
    hide IsNamed;
    NamedFrame(rs, e, AfterPause(e, id));
    NamedFrame(rs, e, AfterResume(e, id));
  }

  lemma NamedPump(c: Client, rs: set<Record>, e: Engine, endings: seq<Ending>)
    requires Named(rs, e) && Sound(e)
    ensures Named(rs, AfterPump(c, e, endings))
  {
    hide Named, Sound, Worked, ReportUpTo, Swept;
    NamedWork(c, rs, e);
    NamedReports(rs, Worked(c, e), endings, |Worked(c, e).active|);
    NamedSwept(rs, ReportUpTo(Worked(c, e), endings, |Worked(c, e).active|));
  }

  // Where names are apart nothing is taken.

  /** The path a named download ends up at is nobody's staged path. */
  lemma FinalIsApart(rs: set<Record>, e: Engine, id: Text, other: Text)
    requires NamesApart(rs) && IsNamed(rs, e, id) && IsNamed(rs, e, other)
    ensures NameOf(e, id) != HomeOf(e, other)
  {
    hide StagedPath;
    var r :| r in rs && NamedBy(e, id, r);
    var q :| q in rs && NamedBy(e, other, q);
    assert r.name != StagedPath(q.name, q.id);
  }

  lemma NobodyStagedAt(rs: set<Record>, e: Engine, f: Engine, id: Text)
    requires NamesApart(rs) && Named(rs, e) && id in e.names && f.names == e.names && f.active == e.active
    ensures StagedAt(f, f.active, NameOf(e, id)) == {}
  {
    hide NamesApart, IsNamed, StagedPath;
    forall i | 0 <= i < |f.active|
      ensures HomeOf(f, f.active[i].record.id) != NameOf(e, id)
    {
      SameName(e, f, f.active[i].record.id);
      FinalIsApart(rs, e, id, f.active[i].record.id);
    }
  }

  lemma FinishTakesNone(rs: set<Record>, e: Engine, id: Text, ending: Ending)
    requires NamesApart(rs) && Named(rs, e)
    ensures Finish(e, id, ending).taken == e.taken
  {
    hide NamesApart, Named, Off, Rebased, StagedAt, HomeOf, FileAt;
    if Writable(e.files, e.names, id) {
      NobodyStagedAt(rs, e, e, id);
      NobodyStagedAt(rs, e, Dropped(e, HomeOf(e, id)), id);
    }
  }

  lemma {:induction false} ReportsTakeNone(rs: set<Record>, e: Engine, endings: seq<Ending>, n: nat)
    requires NamesApart(rs) && Named(rs, e) && n <= |e.active|
    ensures ReportUpTo(e, endings, n).taken == e.taken
  {
    hide NamesApart, Named, Finish, EndingAt, CompleteNow;
    if n > 0 {
      var before, a := ReportUpTo(e, endings, n - 1), e.active[n - 1];
      ReportsTakeNone(rs, e, endings, n - 1);
      NamedReports(rs, e, endings, n - 1);
      NotedNamed(rs, before, a);
      FinishTakesNone(rs, NotedComplete(before, a), a.record.id, EndingAt(endings, n - 1));
    }
  }

  lemma NotedNamed(rs: set<Record>, e: Engine, a: Active)
    requires Named(rs, e)
    ensures Named(rs, NotedComplete(e, a))
  {
    hide IsNamed, CompleteNow;
    NamedFrame(rs, e, NotedComplete(e, a));
  }

  lemma StepTakesNone(c: Client, rs: set<Record>, e: Engine, call: Call)
    requires NamesApart(rs) && Named(rs, e) && Sound(e)
    ensures Step(c, e, call).taken == e.taken
  {
    hide NamesApart, Named, Sound, Interrupted, Worked, ReportUpTo, Settled, CanQueue, IsPending, IsActive, Off, StagedPath, WithoutRecord, WithoutActive;
    match call
    case Pump(endings) =>
      WorkTakes(c, e);
      NamedWork(c, rs, e);
      ReportsTakeNone(rs, Worked(c, e), endings, |Worked(c, e).active|);
    case Crash(scans, runs, torn) => CrashGrows(c, e, scans, runs, torn);
    case CrashInReports(endings) =>
      WorkTakes(c, e);
      NamedWork(c, rs, e);
      ReportsTakeNone(rs, Worked(c, e), endings, Min(|endings|, |Worked(c, e).active|));
    case _ =>
  }

  lemma {:induction false} RunIsNamed(c: Client, calls: seq<Call>, rs: set<Record>)
    requires forall call | call in calls :: OpensOf(call, rs)
    ensures Named(rs, Run(c, calls))
  {
    hide Step, Named, Sound, Resting, OpensOf;
    if calls == [] {
      NamedEnded(rs, Empty());
      assert Ended(Empty()) == Empty();
    } else {
      RunIsNamed(c, calls[..|calls| - 1], rs);
      RunIsSound(c, calls[..|calls| - 1]);
      NamedStep(c, rs, Run(c, calls[..|calls| - 1]), calls[|calls| - 1]);
    }
  }

  lemma {:induction false} ApartTakesNone(c: Client, calls: seq<Call>, rs: set<Record>)
    requires NamesApart(rs) && forall call | call in calls :: OpensOf(call, rs)
    ensures Run(c, calls).taken == {}
  {
    hide Step, Named, Sound, Resting, OpensOf, NamesApart;
    if calls != [] {
      ApartTakesNone(c, calls[..|calls| - 1], rs);
      RunIsNamed(c, calls[..|calls| - 1], rs);
      RunIsSound(c, calls[..|calls| - 1]);
      StepTakesNone(c, rs, Run(c, calls[..|calls| - 1]), calls[|calls| - 1]);
    }
  }

  /** Where no file name of the run is the staged path of one of its downloads, no commit of it takes the file of a
      running download. */
  lemma NoneTaken(c: Client, calls: seq<Call>)
    requires NamesApart(Opened(calls))
    ensures Run(c, calls).taken == {}
  {
    hide NamesApart;
    forall call | call in calls
      ensures OpensOf(call, Opened(calls))
    {
    }
    ApartTakesNone(c, calls, Opened(calls));
  }
}
