/** What one pump tells its callbacks: about whom, and in what order. */
module PumpEvents {
  import opened Bytes
  import opened Wrappers
  import opened DownloadPlan
  import opened DownloadCheckpoint
  import opened HttpTransport
  import opened TransferScheduler
  import opened SchedulerInvariants
  import opened SchedulerTheorems

  predicate Listed(e: Engine, id: Text) {
    IsPending(e, id) || IsActive(e, id)
  }

  /** From e to f the log grew by events about listed downloads, none of them a completion. */
  ghost predicate Working(e: Engine, f: Engine) {
    && e.log <= f.log
    && (forall k | |e.log| <= k < |f.log| :: Listed(e, About(f.log[k])) && !f.log[k].Complete?)
    && (forall id | Listed(f, id) :: Listed(e, id))
  }

  lemma WorkingSelf(e: Engine)
    ensures Working(e, e)
  {
  }

  lemma WorkingChains(e: Engine, f: Engine, g: Engine)
    requires Working(e, f) && Working(f, g)
    ensures Working(e, g)
  {
    hide Listed;
  }

  lemma StartedWorks(e: Engine, r: Record, m: Metadata)
    ensures var f := Started(e, r, m);
      && f.pending == e.pending && |f.log| == |e.log| + 2 && e.log <= f.log
      && (forall k | |e.log| <= k < |f.log| :: About(f.log[k]) == r.id && !f.log[k].Complete?)
      && (forall id | IsActive(f, id) :: id == r.id || IsActive(e, id))
  {
    hide NewPlan, RestoredPlan, Saved, Kept, StagedFile;
    RestoredId(e.checkpoints, r, m);
  }

  lemma ActivateOneWorks(c: Client, e: Engine)
    requires Sound(e) && e.pending != [] && |e.active| < MAX_ACTIVE
    ensures Working(e, ActivateOne(c, e))
  {
    hide NewPlan, Started, Sound, Inspected, IsActive, IsPending, FailedId, About;
    var r := e.pending[0];
    var m := Inspected(c.inspect(e.calls, r.url, r.referrer));
    var asked := e.(pending := e.pending[1..], calls := e.calls + 1, log := e.log + [Described(r, m)]);
    FrontListed(e, ActivateOne(c, e));
    FrontListed(e, asked);
    AboutFront(r, m);
    if m.Some? {
      StartedWorks(asked, r, m.value);
      FrontListed(e, Started(asked, r, m.value));
    }
    FailedWorks(asked, r.id);
    FrontListed(e, FailedId(asked, r.id));
  }

  lemma AboutFront(r: Record, m: Option<Metadata>)
    ensures About(Described(r, m)) == r.id && About(Failure(r.id)) == r.id
  {
  }

  /** The first of the queue taken, or put last. */
  lemma FrontListed(e: Engine, f: Engine)
    requires e.pending != []
    ensures Listed(e, e.pending[0].id)
    ensures f.active == e.active ==> forall id :: IsActive(f, id) == IsActive(e, id)
    ensures f.pending == e.pending[1..] || f.pending == e.pending[1..] + [e.pending[0]] ==> forall id | IsPending(f, id) :: IsPending(e, id)
  {
    hide IsActive;
    SameActives(f, e);
    forall id | IsPending(f, id) && (f.pending == e.pending[1..] || f.pending == e.pending[1..] + [e.pending[0]])
      ensures IsPending(e, id)
    {
      var i :| 0 <= i < |f.pending| && f.pending[i].id == id;
      assert f.pending[i] in e.pending;
    }
  }

  lemma FailedWorks(e: Engine, id: Text)
    ensures var f := FailedId(e, id);
      f.pending == e.pending && f.active == e.active && f.log == e.log + [Failure(id)]
  {
  }

  lemma SameActives(f: Engine, e: Engine)
    ensures f.active == e.active ==> forall id :: IsActive(f, id) == IsActive(e, id)
  {
  }

  lemma {:induction false} ActivationWorks(c: Client, e: Engine, scans: nat)
    requires Sound(e)
    ensures Working(e, ActivateUpTo(c, e, scans))
    decreases scans
  {
    hide ActivateOne, Sound, Working;
    if |e.active| >= MAX_ACTIVE || e.pending == [] || scans == 0 {
      WorkingSelf(e);
    } else {
      ActivateOneKeeps(c, e);
      ActivateOneWorks(c, e);
      ActivationWorks(c, ActivateOne(c, e), scans - 1);
      WorkingChains(e, ActivateOne(c, e), ActivateUpTo(c, e, scans));
    }
  }

  /** A turn of the run loop says what it does of its own download. */
  lemma RunOneSays(c: Client, e: Engine, i: nat)
    requires i < |e.active| && e.active[i].plan.id == e.active[i].record.id
    ensures var f := RunOne(c, e, i);
      && e.log <= f.log && forall k | |e.log| <= k < |f.log| :: About(f.log[k]) == e.active[i].record.id && !f.log[k].Complete?
  {
    hide AfterTransfer, TotalDone, AfterStreaming, ResultAt, Saved, NameOf;
    var k := FirstUnfinished(e.active[i].plan.segments);
    if k < |e.active[i].plan.segments| {
      StreamedSays(c, e, i, k);
    }
  }

  lemma StreamedSays(c: Client, e: Engine, i: nat, k: nat)
    requires i < |e.active| && k < |e.active[i].plan.segments|
    ensures AfterStreaming(c, e, i, k).log == e.log + [Transferred(RequestOf(e.active[i], k))] && AfterStreaming(c, e, i, k).active == e.active
  {
    hide FilesAfter;
  }

  lemma RunOneWorks(c: Client, e: Engine, i: nat)
    requires Sound(e) && i < |e.active|
    ensures Working(e, RunOne(c, e, i))
  {
    hide RunOne, Sound;
    SoundNames(e, i);
    RunOneSays(c, e, i);
    RunOneKeeps(c, e, i);
    SameNames(e, RunOne(c, e, i));
    assert IsActive(e, e.active[i].record.id);
  }

  lemma SameNames(e: Engine, f: Engine)
    requires f.pending == e.pending && |f.active| == |e.active|
    requires forall j | 0 <= j < |e.active| :: f.active[j].record == e.active[j].record
    ensures forall id :: Listed(f, id) == Listed(e, id)
  {
  }

  lemma {:induction false} RunWorks(c: Client, e: Engine, n: nat)
    requires Sound(e) && n <= |e.active|
    ensures Working(e, RunUpTo(c, e, n))
  {
    hide RunOne, Sound, Working;
    if n == 0 {
      WorkingSelf(e);
    } else {
      RunWorks(c, e, n - 1);
      RunKeeps(c, e, n - 1);
      RunOneWorks(c, RunUpTo(c, e, n - 1), n - 1);
      WorkingChains(e, RunUpTo(c, e, n - 1), RunUpTo(c, e, n));
    }
  }

  /** One of the first n active downloads is this one, and it is over. */
  ghost predicate Over(e: Engine, n: nat, id: Text)
    requires n <= |e.active|
  {
    exists i | 0 <= i < n :: e.active[i].record.id == id && (e.active[i].finished || e.active[i].failed)
  }

  /** The reports: one for each active download that is over, in order, and about nobody twice. */
  ghost predicate Reporting(e: Engine, n: nat, f: Engine)
    requires n <= |e.active|
  {
    && e.log <= f.log
    && (forall k | |e.log| <= k < |f.log| :: Over(e, n, About(f.log[k])))
    && (forall j, k | |e.log| <= j < k < |f.log| :: About(f.log[j]) != About(f.log[k]))
  }

  lemma ReportOneEvent(e: Engine, a: Active, ending: Ending)
    requires ActiveSound(a)
    ensures ReportOne(e, a, ending).log ==
              if a.finished then e.log + [CompleteNow(e, a)]
              else if a.failed then e.log + [Failure(a.record.id)]
              else e.log
    ensures a.plan.id == a.record.id && About(CompleteNow(e, a)) == a.record.id && About(Failure(a.record.id)) == a.record.id
  {
    hide Underway, Budget, Finish, StagedFile, BasisOf;
    FinishKeepsLists(NotedComplete(e, a), a.record.id, ending);
  }

  lemma ReportStep(e: Engine, n: nat, before: Engine, after: Engine)
    requires 0 < n <= |e.active| && Reporting(e, n - 1, before)
    requires forall i | 0 <= i < n - 1 :: e.active[i].record.id != e.active[n - 1].record.id
    requires after.log == before.log
             || (|after.log| == |before.log| + 1 && before.log <= after.log
                 && About(after.log[|before.log|]) == e.active[n - 1].record.id
                 && (e.active[n - 1].finished || e.active[n - 1].failed))
    ensures Reporting(e, n, after)
  {
    hide About;
    assert forall k | 0 <= k < |before.log| :: after.log[k] == before.log[k];
    forall k | |e.log| <= k < |after.log|
      ensures Over(e, n, About(after.log[k]))
    {
      if k < |before.log| {
        assert Over(e, n - 1, About(before.log[k]));
      } else {
        assert e.active[n - 1].record.id == About(after.log[k]);
      }
    }
    forall j, k | |e.log| <= j < k < |after.log|
      ensures About(after.log[j]) != About(after.log[k])
    {
      if k == |before.log| {
        assert Over(e, n - 1, About(before.log[j]));
      }
    }
  }

  lemma {:induction false} ReportsAre(e: Engine, endings: seq<Ending>, n: nat)
    requires Sound(e) && n <= |e.active|
    ensures Reporting(e, n, ReportUpTo(e, endings, n))
  {
    hide Sound, ReportOne, Reporting, CompleteNow, ActiveSound, About, EndingAt;
    if n == 0 {
      NoReports(e);
    } else {
      ReportsAre(e, endings, n - 1);
      SoundActive(e, n - 1);
      ReportOneEvent(ReportUpTo(e, endings, n - 1), e.active[n - 1], EndingAt(endings, n - 1));
      SoundIds(e);
      ReportStep(e, n, ReportUpTo(e, endings, n - 1), ReportUpTo(e, endings, n));
    }
  }

  lemma NoReports(e: Engine)
    ensures Reporting(e, 0, e)
  {
  }

  lemma SoundActive(e: Engine, i: nat)
    requires Sound(e) && i < |e.active|
    ensures ActiveSound(e.active[i])
  {
    hide Genuine, DistinctIds, ActiveSound;
  }

  lemma WorkSpeaks(c: Client, e: Engine)
    requires Sound(e)
    ensures Working(e, Worked(c, e))
  {
    hide Sound, Working, ActivateUpTo, RunUpTo;
    var activated := ActivateUpTo(c, e, |e.pending|);
    ActivationWorks(c, e, |e.pending|);
    ActivationKeeps(c, e, |e.pending|);
    RunWorks(c, activated, |activated.active|);
    WorkingChains(e, activated, Worked(c, e));
  }

  /** A pump works on listed downloads only, then reports each one that is over once;
      and whoever is reported is no longer listed. */
  lemma PumpSpeaks(c: Client, e: Engine, endings: seq<Ending>)
    requires Sound(e)
    ensures Working(e, Worked(c, e)) && Worked(c, e).log <= AfterPump(c, e, endings).log
    ensures forall k | |Worked(c, e).log| <= k < |AfterPump(c, e, endings).log| ::
              Listed(e, About(AfterPump(c, e, endings).log[k])) && !Listed(AfterPump(c, e, endings), About(AfterPump(c, e, endings).log[k]))
    ensures forall j, k | |Worked(c, e).log| <= j < k < |AfterPump(c, e, endings).log| ::
              About(AfterPump(c, e, endings).log[j]) != About(AfterPump(c, e, endings).log[k])
    ensures forall id | Listed(AfterPump(c, e, endings), id) :: Listed(e, id)
  {
    hide Sound, Working, Worked, ReportUpTo, Settled;
    var ran := Worked(c, e);
    var n := |ran.active|;
    WorkSpeaks(c, e);
    WorkKeeps(c, e);
    ReportsAre(ran, endings, n);
    ReportFrame(ran, endings, n);
    SettledAre(ran.cancelled, ran.active);
    WorkedListed(e, ran);
    var f := AfterPump(c, e, endings);
    assert f.log == ReportUpTo(ran, endings, n).log;
    forall k | |ran.log| <= k < |f.log|
      ensures Listed(e, About(f.log[k])) && !Listed(f, About(f.log[k]))
    {
      assert Over(ran, n, About(f.log[k]));
      var i :| 0 <= i < n && ran.active[i].record.id == About(f.log[k]) && (ran.active[i].finished || ran.active[i].failed);
      ReportedIsGone(ran, f, i);
    }
    forall id | Listed(f, id)
      ensures Listed(e, id)
    {
      StillListed(ran, f, id);
    }
  }

  lemma WorkedListed(e: Engine, f: Engine)
    requires Working(e, f)
    ensures forall id | Listed(f, id) :: Listed(e, id)
  {
    hide Listed;
  }

  lemma ReportedIsGone(ran: Engine, f: Engine, i: nat)
    requires Sound(ran) && i < |ran.active| && (ran.active[i].finished || ran.active[i].failed)
    requires f.pending == ran.pending
    requires forall a :: a in f.active <==> a in ran.active && !a.finished && !a.failed && a.record.id !in ran.cancelled
    ensures !Listed(f, ran.active[i].record.id) && Listed(ran, ran.active[i].record.id)
  {
    hide ActiveSound, Genuine;
    forall j | 0 <= j < |f.active|
      ensures f.active[j].record.id != ran.active[i].record.id
    {
      assert f.active[j] in f.active;
      var k :| 0 <= k < |ran.active| && ran.active[k] == f.active[j];
    }
  }

  lemma StillListed(ran: Engine, f: Engine, id: Text)
    requires f.pending == ran.pending && Listed(f, id)
    requires forall a :: a in f.active ==> a in ran.active
    ensures Listed(ran, id)
  {
    if IsActive(f, id) {
      var j :| 0 <= j < |f.active| && f.active[j].record.id == id;
      assert f.active[j] in f.active;
    }
  }
}
