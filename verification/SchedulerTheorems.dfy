/** What a run of the scheduler does over time: who is transferred, how often, and how it ends. */
module SchedulerTheorems {
  import opened Bytes
  import opened Wrappers
  import opened DownloadPlan
  import opened DownloadCheckpoint
  import opened StagedPaths
  import opened HttpTransport
  import opened TransferScheduler
  import opened SchedulerInvariants

  // Paused and cancelled downloads.

  /** The log grew from e to f by events that transfer nothing paused or cancelled. */
  ghost predicate OnlyOpenTransfers(e: Engine, f: Engine) {
    && e.log <= f.log && f.paused == e.paused && f.cancelled == e.cancelled
    && forall k | |e.log| <= k < |f.log| && f.log[k].Transferred? ::
         f.log[k].request.id !in e.paused && f.log[k].request.id !in e.cancelled
  }

  lemma OpenChains(e: Engine, f: Engine, g: Engine)
    requires OnlyOpenTransfers(e, f) && OnlyOpenTransfers(f, g)
    ensures OnlyOpenTransfers(e, g)
  {
  }

  lemma ActivateOneOpen(c: Client, e: Engine)
    requires e.pending != []
    ensures OnlyOpenTransfers(e, ActivateOne(c, e))
  {
    hide Inspected, Started, NewPlan;
    var r := e.pending[0];
    var m := Inspected(c.inspect(e.calls, r.url, r.referrer));
    if m.Some? {
      StartOpen(e, e.(pending := e.pending[1..], calls := e.calls + 1, log := e.log + [Described(r, m)]), r, m.value);
    }
  }

  lemma StartOpen(e: Engine, asked: Engine, r: Record, m: Metadata)
    requires OnlyOpenTransfers(e, asked)
    ensures OnlyOpenTransfers(e, Started(asked, r, m))
  {
    StartedParts(asked, r, m);
    hide Started, NewPlan, RestoredPlan, StagedFile, Kept;
  }

  lemma {:induction false} ActivationOpen(c: Client, e: Engine, scans: nat)
    ensures OnlyOpenTransfers(e, ActivateUpTo(c, e, scans))
    decreases scans
  {
    hide OnlyOpenTransfers, ActivateOne;
    if |e.active| >= MAX_ACTIVE || e.pending == [] || scans == 0 {
      OpenSelf(e);
    } else {
      ActivateOneOpen(c, e);
      ActivationOpen(c, ActivateOne(c, e), scans - 1);
      OpenChains(e, ActivateOne(c, e), ActivateUpTo(c, e, scans));
    }
  }

  lemma OpenSelf(e: Engine)
    ensures OnlyOpenTransfers(e, e)
  {
  }

  lemma RunOneOpen(c: Client, e: Engine, i: nat)
    requires i < |e.active|
    ensures OnlyOpenTransfers(e, RunOne(c, e, i))
  {
    hide AfterResult, FilesAfter, ResultAt, Saved, NameOf;
  }

  lemma {:induction false} RunOpen(c: Client, e: Engine, n: nat)
    requires n <= |e.active|
    ensures OnlyOpenTransfers(e, RunUpTo(c, e, n))
  {
    hide OnlyOpenTransfers, RunOne;
    if n == 0 {
      OpenSelf(e);
    } else {
      RunOpen(c, e, n - 1);
      RunOneOpen(c, RunUpTo(c, e, n - 1), n - 1);
      OpenChains(e, RunUpTo(c, e, n - 1), RunUpTo(c, e, n));
    }
  }

  lemma ReportOneOpen(e: Engine, a: Active, ending: Ending)
    ensures OnlyOpenTransfers(e, ReportOne(e, a, ending))
  {
    hide Finish, StagedFile, BasisOf;
    FinishKeepsLists(NotedComplete(e, a), a.record.id, ending);
  }

  lemma {:induction false} ReportOpen(e: Engine, endings: seq<Ending>, n: nat)
    requires n <= |e.active|
    ensures OnlyOpenTransfers(e, ReportUpTo(e, endings, n))
  {
    hide OnlyOpenTransfers, ReportOne;
    if n == 0 {
      OpenSelf(e);
    } else {
      ReportOpen(e, endings, n - 1);
      ReportOneOpen(ReportUpTo(e, endings, n - 1), e.active[n - 1], EndingAt(endings, n - 1));
      OpenChains(e, ReportUpTo(e, endings, n - 1), ReportUpTo(e, endings, n));
    }
  }

  lemma WorkOpen(c: Client, e: Engine)
    ensures OnlyOpenTransfers(e, Worked(c, e))
  {
    hide OnlyOpenTransfers, ActivateUpTo, RunUpTo;
    var activated := ActivateUpTo(c, e, |e.pending|);
    ActivationOpen(c, e, |e.pending|);
    RunOpen(c, activated, |activated.active|);
    OpenChains(e, activated, Worked(c, e));
  }

  /** A pump never transfers a download that is paused or cancelled. */
  lemma PumpTransfersOnlyOpen(c: Client, e: Engine, endings: seq<Ending>)
    ensures OnlyOpenTransfers(e, AfterPump(c, e, endings))
  {
    hide OnlyOpenTransfers, Worked, ReportUpTo, Settled;
    var worked := Worked(c, e);
    WorkOpen(c, e);
    ReportOpen(worked, endings, |worked.active|);
    var reported := ReportUpTo(worked, endings, |worked.active|);
    OpenChains(e, worked, reported);
    SameLogOpen(e, reported, Swept(reported));
  }

  lemma SameLogOpen(e: Engine, f: Engine, g: Engine)
    requires OnlyOpenTransfers(e, f) && g.log == f.log && g.paused == f.paused && g.cancelled == f.cancelled
    ensures OnlyOpenTransfers(e, g)
  {
  }

  // Cancelled for good.

  function About(ev: Event): Text {
    match ev
    case Described(r, _) => r.id
    case Activated(p, _, _) => p.id
    case Transferred(r) => r.id
    case Progress(p) => p.id
    case Complete(p, _, _, _) => p.id
    case Failure(id) => id
  }

  ghost predicate Silent(e: Engine, f: Engine, id: Text) {
    && e.log <= f.log
    && forall k | |e.log| <= k < |f.log| :: About(f.log[k]) != id
  }

  /** Cancelled and not active: nothing more is said of this download. */
  ghost predicate Dead(e: Engine, id: Text) {
    id in e.cancelled && !IsActive(e, id)
  }

  lemma ActivateOneSilent(c: Client, e: Engine, id: Text)
    requires Sound(e) && e.pending != [] && Dead(e, id)
    ensures Dead(ActivateOne(c, e), id) && Silent(e, ActivateOne(c, e), id)
  {
    hide NewPlan, Sound, Inspected, Started, IsActive;
    var r := e.pending[0];
    var m := Inspected(c.inspect(e.calls, r.url, r.referrer));
    if m.Some? && r.id !in e.cancelled {
      StartSilent(e, e.(pending := e.pending[1..], calls := e.calls + 1, log := e.log + [Described(r, m)]), r, m.value, id);
    }
    OneMoreActive(e, ActivateOne(c, e), id);
  }

  lemma StartSilent(e: Engine, asked: Engine, r: Record, m: Metadata, id: Text)
    requires Dead(e, id) && Silent(e, asked, id) && r.id != id && asked.active == e.active && asked.cancelled == e.cancelled
    ensures Dead(Started(asked, r, m), id) && Silent(e, Started(asked, r, m), id)
  {
    StartedParts(asked, r, m);
    OneMoreActive(e, Started(asked, r, m), id);
    hide Started, NewPlan, RestoredPlan, StagedFile, Kept, IsActive;
  }

  lemma OneMoreActive(e: Engine, f: Engine, id: Text)
    ensures f.active == e.active ==> IsActive(f, id) == IsActive(e, id)
    ensures |f.active| == |e.active| + 1 && e.active <= f.active ==> IsActive(f, id) == (IsActive(e, id) || f.active[|e.active|].record.id == id)
  {
  }

  lemma RestoredId(checkpoints: map<Text, Checkpoint>, r: Record, m: Metadata)
    ensures RestoredPlan(checkpoints, NewPlan(r, m, MAX_SEGMENTS)).id == r.id
  {
  }

  lemma {:induction false} ActivationSilent(c: Client, e: Engine, scans: nat, id: Text)
    requires Sound(e) && Dead(e, id)
    ensures Dead(ActivateUpTo(c, e, scans), id) && Silent(e, ActivateUpTo(c, e, scans), id)
    decreases scans
  {
    hide ActivateOne, Sound, Dead;
    if |e.active| < MAX_ACTIVE && e.pending != [] && scans > 0 {
      ActivateOneKeeps(c, e);
      ActivateOneSilent(c, e, id);
      ActivationSilent(c, ActivateOne(c, e), scans - 1, id);
    }
  }

  lemma RunOneSilent(c: Client, e: Engine, i: nat, id: Text)
    requires Sound(e) && i < |e.active| && Dead(e, id)
    ensures Dead(RunOne(c, e, i), id) && Silent(e, RunOne(c, e, i), id)
  {
    hide RunOne, Sound;
    SoundNames(e, i);
    RunOneKeeps(c, e, i);
    RunOneTells(c, e, i);
  }

  /** One turn of the run loop speaks of the download it runs. */
  lemma RunOneTells(c: Client, e: Engine, i: nat)
    requires i < |e.active| && e.active[i].plan.id == e.active[i].record.id
    ensures var f := RunOne(c, e, i);
      e.log <= f.log && (Skipped(e, i) ==> f == e) && forall k | |e.log| <= k < |f.log| :: About(f.log[k]) == e.active[i].record.id
  {
    hide AfterResult, ResultAt, Noted, AfterStreaming;
    if !Skipped(e, i) {
      var a := e.active[i];
      var k := FirstUnfinished(a.plan.segments);
      if k == |a.plan.segments| {
        NotedTells(e, i, a.(finished := true));
      } else {
        var streamed, result := AfterStreaming(c, e, i, k), AfterResult(a, k, ResultAt(c, e, i, k));
        StreamingTells(c, e, i, k);
        SamePlan(a, k, ResultAt(c, e, i, k));
        NotedTells(streamed, i, result);
      }
    }
  }

  lemma NotedTells(e: Engine, i: nat, a: Active)
    requires i < |e.active|
    ensures Noted(e, i, a).log == e.log + [Progress(a.plan)]
  {
    hide Saved, NameOf;
  }

  lemma StreamingTells(c: Client, e: Engine, i: nat, k: nat)
    requires i < |e.active| && k < |e.active[i].plan.segments|
    ensures AfterStreaming(c, e, i, k).log == e.log + [Transferred(RequestOf(e.active[i], k))] && AfterStreaming(c, e, i, k).active == e.active
  {
    hide FilesAfter;
  }

  lemma SamePlan(a: Active, k: nat, r: TransferResult)
    requires k < |a.plan.segments|
    ensures AfterResult(a, k, r).plan.id == a.plan.id
  {
    hide AfterTransfer, TotalDone;
  }

  lemma {:induction false} RunSilent(c: Client, e: Engine, n: nat, id: Text)
    requires Sound(e) && n <= |e.active| && Dead(e, id)
    ensures Dead(RunUpTo(c, e, n), id) && Silent(e, RunUpTo(c, e, n), id)
  {
    hide RunOne, Sound, Dead;
    if n > 0 {
      RunSilent(c, e, n - 1, id);
      RunKeeps(c, e, n - 1);
      RunOneSilent(c, RunUpTo(c, e, n - 1), n - 1, id);
    }
  }

  lemma {:induction false} ReportSilent(e: Engine, endings: seq<Ending>, n: nat, id: Text)
    requires Sound(e) && n <= |e.active| && !IsActive(e, id)
    ensures Silent(e, ReportUpTo(e, endings, n), id)
  {
    hide Sound, ReportOne;
    if n > 0 {
      ReportSilent(e, endings, n - 1, id);
      SoundNames(e, n - 1);
      OneReportAbout(ReportUpTo(e, endings, n - 1), e.active[n - 1], EndingAt(endings, n - 1));
    }
  }

  lemma SoundNames(e: Engine, i: nat)
    requires Sound(e) && i < |e.active|
    ensures e.active[i].plan.id == e.active[i].record.id
  {
    hide Genuine, DistinctIds, Underway, Budget;
    assert ActiveSound(e.active[i]);
  }

  lemma OneReportAbout(e: Engine, a: Active, ending: Ending)
    requires a.plan.id == a.record.id
    ensures e.log <= ReportOne(e, a, ending).log
    ensures forall k | |e.log| <= k < |ReportOne(e, a, ending).log| :: About(ReportOne(e, a, ending).log[k]) == a.record.id
  {
    hide Finish, StagedFile, BasisOf;
    FinishKeepsLists(NotedComplete(e, a), a.record.id, ending);
  }

  lemma PumpSilent(c: Client, e: Engine, endings: seq<Ending>, id: Text)
    requires Sound(e) && Dead(e, id)
    ensures Dead(AfterPump(c, e, endings), id) && Silent(e, AfterPump(c, e, endings), id)
  {
    hide Sound, ActivateUpTo, RunUpTo, ReportUpTo, Settled;
    var activated := ActivateUpTo(c, e, |e.pending|);
    var ran := RunUpTo(c, activated, |activated.active|);
    ActivationSilent(c, e, |e.pending|, id);
    ActivationKeeps(c, e, |e.pending|);
    RunSilent(c, activated, |activated.active|, id);
    RunKeeps(c, activated, |activated.active|);
    ReportSilent(ran, endings, |ran.active|, id);
    ReportFrame(ran, endings, |ran.active|);
    SettledAre(ran.cancelled, ran.active);
    forall i | 0 <= i < |AfterPump(c, e, endings).active|
      ensures AfterPump(c, e, endings).active[i].record.id != id
    {
      assert AfterPump(c, e, endings).active[i] in ran.active;
    }
  }

  predicate EndsProgram(call: Call) {
    call.Crash? || call.CrashInReports?
  }

  lemma StepSilent(c: Client, e: Engine, call: Call, id: Text)
    requires Sound(e) && Resting(e) && Dead(e, id) && !EndsProgram(call)
    ensures Dead(Step(c, e, call), id) && Silent(e, Step(c, e, call), id)
  {
    hide Sound, AfterPump, Withdrawn, HasFile, CanQueue, IsPending, HomeOf;
    match call
    case Pump(endings) => PumpSilent(c, e, endings, id);
    case Cancel(x, drops) => WithdrawnSilent(e, x, drops, id);
    case Restart(r) =>
      WithdrawnSilent(e, r.id, Some(r.name), id);
      QueuedSilent(Withdrawn(e, r.id, Some(r.name)), r, id);
    case Enqueue(r) => QueuedSilent(e, r, id);
    case Prepare(r) => QueuedSilent(e, r, id);
    case _ =>
  }

  lemma WithdrawnSilent(e: Engine, x: Text, drops: Option<Text>, id: Text)
    requires Dead(e, id)
    ensures Dead(Withdrawn(e, x, drops), id) && Withdrawn(e, x, drops).log == e.log
  {
    hide WithoutRecord, WithoutActive;
    WithoutActiveIs(e.active, x);
    StillInactive(e, WithoutActive(e.active, x), id);
  }

  lemma QueuedSilent(e: Engine, r: Record, id: Text)
    requires Dead(e, id)
    ensures Dead(HasFile(e, r), id) && HasFile(e, r).log == e.log
    ensures Dead(AfterQueue(HasFile(e, r), r), id) && AfterQueue(HasFile(e, r), r).log == e.log
  {
    hide CanQueue;
  }

  lemma StillInactive(e: Engine, fewer: seq<Active>, id: Text)
    requires !IsActive(e, id) && forall a | a in fewer :: a in e.active
    ensures !IsActive(e.(active := fewer), id)
    ensures forall i | 0 <= i < |fewer| :: fewer[i].record.id != id
  {
    forall i | 0 <= i < |fewer|
      ensures fewer[i].record.id != id
    {
      assert fewer[i] in fewer;
    }
  }

  /** A cancelled id is never heard of again in the same scheduler: the set of cancelled ids only grows.
      In particular a download that is restarted, which cancels it first, is queued and then silently dropped:
      it is never activated, transferred, completed or failed until the program restarts. */
  lemma {:induction false} CancelledIsSilent(c: Client, calls: seq<Call>, more: seq<Call>, id: Text)
    requires Dead(Run(c, calls), id)
    requires forall call | call in more :: !EndsProgram(call)
    ensures Dead(Run(c, calls + more), id) && Silent(Run(c, calls), Run(c, calls + more), id)
  {
    hide Step, Dead;
    if more == [] {
      assert calls + more == calls;
    } else {
      var shorter := more[..|more| - 1];
      assert (calls + more)[..|calls + more| - 1] == calls + shorter;
      CancelledIsSilent(c, calls, shorter, id);
      RunIsSound(c, calls + shorter);
      StepSilent(c, Run(c, calls + shorter), more[|more| - 1], id);
    }
  }

  lemma RestartedIsDead(c: Client, calls: seq<Call>, r: Record)
    ensures Dead(Run(c, calls + [Restart(r)]), r.id)
    ensures r.id != [] && r.url != [] ==> IsPending(Run(c, calls + [Restart(r)]), r.id)
  {
    hide Sound, WithoutRecord, WithoutActive;
    assert (calls + [Restart(r)])[..|calls|] == calls;
    RunIsSound(c, calls);
    CancelKeeps(Run(c, calls), r.id);
    var after := Restarted(Run(c, calls), r);
    assert Run(c, calls + [Restart(r)]) == after;
    if r.id != [] && r.url != [] {
      assert after.pending[|after.pending| - 1] == r;
    }
  }

  // How many transfers.

  const MOST_TRANSFERS := (1 + MAX_RETRIES) * MAX_SEGMENTS

  datatype Kind = Activating | Transferring | Refusing | Concluding

  predicate Is(kind: Kind, ev: Event, id: Text) {
    match kind
    case Activating => ev.Activated? && ev.plan.id == id
    case Transferring => ev.Transferred? && ev.request.id == id
    case Refusing => ev.Described? && ev.answer.None? && ev.record.id == id
    case Concluding => (ev.Complete? && ev.plan.id == id) || (ev.Failure? && ev.id == id)
  }

  /** How many events of a kind the log has about a download. */
  function Tally(log: seq<Event>, kind: Kind, id: Text): nat {
    if log == [] then 0 else Tally(log[..|log| - 1], kind, id) + if Is(kind, log[|log| - 1], id) then 1 else 0
  }

  function Transfers(log: seq<Event>, id: Text): nat {
    Tally(log, Transferring, id)
  }

  function Activations(log: seq<Event>, id: Text): nat {
    Tally(log, Activating, id)
  }

  lemma TallyOne(log: seq<Event>, ev: Event, kind: Kind, id: Text)
    ensures Tally(log + [ev], kind, id) == Tally(log, kind, id) + if Is(kind, ev, id) then 1 else 0
  {
    assert (log + [ev])[..|log|] == log;
  }

  lemma CountOne(log: seq<Event>, ev: Event, id: Text)
    ensures Transfers(log + [ev], id) == Transfers(log, id) + if ev.Transferred? && ev.request.id == id then 1 else 0
    ensures Activations(log + [ev], id) == Activations(log, id) + if ev.Activated? && ev.plan.id == id then 1 else 0
  {
    TallyOne(log, ev, Transferring, id);
    TallyOne(log, ev, Activating, id);
  }

  /** Every activation pays for all the transfers of its download, the current one only for those it made. */
  ghost predicate Metered(e: Engine) {
    && (forall id :: Transfers(e.log, id) <= MOST_TRANSFERS * Activations(e.log, id))
    && (forall i | 0 <= i < |e.active| ::
          Transfers(e.log, e.active[i].record.id) <= MOST_TRANSFERS * (Activations(e.log, e.active[i].record.id) - 1) + e.active[i].spent)
  }

  lemma MeteredQuiet(e: Engine, f: Engine)
    requires Metered(e)
    requires forall a | a in f.active :: exists b | b in e.active :: b.record == a.record && b.spent == a.spent
    requires forall id :: Transfers(f.log, id) == Transfers(e.log, id) && Activations(f.log, id) == Activations(e.log, id)
    ensures Metered(f)
  {
    hide Transfers, Activations;
    forall i | 0 <= i < |f.active|
      ensures Transfers(f.log, f.active[i].record.id) <= MOST_TRANSFERS * (Activations(f.log, f.active[i].record.id) - 1) + f.active[i].spent
    {
      assert f.active[i] in f.active;
      var b :| b in e.active && b.record == f.active[i].record && b.spent == f.active[i].spent;
      var j :| 0 <= j < |e.active| && e.active[j] == b;
    }
  }

  lemma MeteredStart(e: Engine, r: Record, m: Metadata)
    requires Metered(e) && !IsActive(e, r.id)
    ensures Metered(Started(e, r, m))
  {
    hide RestoredPlan, NewPlan, Saved, Transfers, Activations, Kept, StagedFile;
    var f := Started(e, r, m);
    var p := RestoredPlan(e.checkpoints, NewPlan(r, m, MAX_SEGMENTS));
    RestoredId(e.checkpoints, r, m);
    var begun := Activated(p, StagedFile(e, r.id), Kept(e, NewPlan(r, m, MAX_SEGMENTS)));
    assert f.log == e.log + [begun] + [Progress(p)];
    forall id
      ensures Transfers(f.log, id) == Transfers(e.log, id)
      ensures Activations(f.log, id) == Activations(e.log, id) + if id == r.id then 1 else 0
    {
      CountOne(e.log, begun, id);
      CountOne(e.log + [begun], Progress(p), id);
    }
  }

  lemma MeteredActivateOne(c: Client, e: Engine)
    requires Sound(e) && Metered(e) && e.pending != []
    ensures Metered(ActivateOne(c, e))
  {
    hide Started, Metered, Transfers, Activations, ActiveSound, Genuine, NewPlan, Inspected;
    var r := e.pending[0];
    var m := Inspected(c.inspect(e.calls, r.url, r.referrer));
    var asked := e.(pending := e.pending[1..], calls := e.calls + 1, log := e.log + [Described(r, m)]);
    assert !IsActive(asked, r.id);
    forall id
      ensures Transfers(asked.log, id) == Transfers(e.log, id) && Activations(asked.log, id) == Activations(e.log, id)
      ensures Transfers(asked.log + [Failure(r.id)], id) == Transfers(e.log, id)
      ensures Activations(asked.log + [Failure(r.id)], id) == Activations(e.log, id)
    {
      CountOne(e.log, Described(r, m), id);
      CountOne(asked.log, Failure(r.id), id);
    }
    MeteredQuiet(e, asked);
    var f := ActivateOne(c, e);
    if r.id !in e.cancelled && r.id !in e.paused && m.Some? && NewPlan(r, m.value, MAX_SEGMENTS).segments != [] {
      MeteredStart(asked, r, m.value);
    } else {
      MeteredQuiet(e, f);
    }
  }

  lemma {:induction false} MeteredActivation(c: Client, e: Engine, scans: nat)
    requires Sound(e) && Metered(e)
    ensures Metered(ActivateUpTo(c, e, scans))
    decreases scans
  {
    hide ActivateOne, Sound, Metered;
    if |e.active| < MAX_ACTIVE && e.pending != [] && scans > 0 {
      MeteredActivateOne(c, e);
      ActivateOneKeeps(c, e);
      MeteredActivation(c, ActivateOne(c, e), scans - 1);
    }
  }

  /** A transfer is logged and counted against its activation, which still had budget for it. */
  lemma MeteredStreaming(c: Client, e: Engine, i: nat, k: nat)
    requires Sound(e) && Metered(e) && i < |e.active| && !e.active[i].finished && !e.active[i].failed
    requires k < |e.active[i].plan.segments| && !e.active[i].plan.segments[k].finished
    ensures var f := AfterStreaming(c, e, i, k);
      && (forall id :: Transfers(f.log, id) <= MOST_TRANSFERS * Activations(f.log, id))
      && Metered(f.(active := e.active[i := e.active[i].(spent := e.active[i].spent + 1)]))
  {
    hide Transfers, Activations, FilesAfter, Underway, Genuine, Budget;
    var a := e.active[i];
    assert ActiveSound(a);
    TransferCosts(a.plan.segments, k, TransferResult(false, false, 0));
    var f := AfterStreaming(c, e, i, k);
    forall id
      ensures Transfers(f.log, id) == Transfers(e.log, id) + if id == a.record.id then 1 else 0
      ensures Activations(f.log, id) == Activations(e.log, id)
    {
      CountOne(e.log, Transferred(RequestOf(a, k)), id);
    }
  }

  lemma MeteredRunOne(c: Client, e: Engine, i: nat)
    requires Sound(e) && Metered(e) && i < |e.active|
    ensures Metered(RunOne(c, e, i))
  {
    hide Sound, Metered, Transfers, Activations, FilesAfter, ResultOf, AfterTransfer, TotalDone, Saved;
    if !Skipped(e, i) {
      var a := e.active[i];
      var k := FirstUnfinished(a.plan.segments);
      var f := RunOne(c, e, i);
      if k == |a.plan.segments| {
        forall id
          ensures Transfers(f.log, id) == Transfers(e.log, id) && Activations(f.log, id) == Activations(e.log, id)
        {
          CountOne(e.log, Progress(a.plan), id);
        }
        SameMeters(e.active, i, a.(finished := true));
        MeteredQuiet(e, f);
      } else {
        MeteredStreaming(c, e, i, k);
        var streamed := AfterStreaming(c, e, i, k);
        var g := streamed.(active := e.active[i := a.(spent := a.spent + 1)]);
        var after := AfterResult(a, k, ResultAt(c, e, i, k));
        forall id
          ensures Transfers(f.log, id) == Transfers(g.log, id) && Activations(f.log, id) == Activations(g.log, id)
        {
          CountOne(g.log, Progress(after.plan), id);
        }
        assert g.active[i := after] == e.active[i := after];
        SameMeters(g.active, i, after);
        MeteredQuiet(g, f);
      }
    }
  }

  lemma SameMeters(actives: seq<Active>, i: nat, a: Active)
    requires i < |actives| && a.record == actives[i].record && a.spent == actives[i].spent
    ensures forall x | x in actives[i := a] :: exists b | b in actives :: b.record == x.record && b.spent == x.spent
  {
    forall x | x in actives[i := a]
      ensures exists b | b in actives :: b.record == x.record && b.spent == x.spent
    {
      var j :| 0 <= j < |actives| && actives[i := a][j] == x;
      assert actives[j] in actives && actives[j].record == x.record && actives[j].spent == x.spent;
    }
  }

  lemma {:induction false} MeteredRun(c: Client, e: Engine, n: nat)
    requires Sound(e) && Metered(e) && n <= |e.active|
    ensures Metered(RunUpTo(c, e, n))
  {
    hide RunOne, Sound, Metered;
    if n > 0 {
      MeteredRun(c, e, n - 1);
      RunKeeps(c, e, n - 1);
      MeteredRunOne(c, RunUpTo(c, e, n - 1), n - 1);
    }
  }

  lemma ReportOneCounts(e: Engine, a: Active, ending: Ending, id: Text)
    ensures Transfers(ReportOne(e, a, ending).log, id) == Transfers(e.log, id)
    ensures Activations(ReportOne(e, a, ending).log, id) == Activations(e.log, id)
  {
    hide Transfers, Activations, Finish, StagedFile, BasisOf;
    var done := CompleteNow(e, a);
    FinishKeepsLists(NotedComplete(e, a), a.record.id, ending);
    var first := if a.finished then e.log + [done] else e.log;
    CountOne(e.log, done, id);
    CountOne(first, Failure(a.record.id), id);
  }

  lemma {:induction false} ReportCounts(e: Engine, endings: seq<Ending>, n: nat, id: Text)
    requires n <= |e.active|
    ensures Transfers(ReportUpTo(e, endings, n).log, id) == Transfers(e.log, id)
    ensures Activations(ReportUpTo(e, endings, n).log, id) == Activations(e.log, id)
  {
    hide Transfers, Activations, ReportOne;
    if n > 0 {
      ReportCounts(e, endings, n - 1, id);
      ReportOneCounts(ReportUpTo(e, endings, n - 1), e.active[n - 1], EndingAt(endings, n - 1), id);
    }
  }

  lemma MeteredReports(e: Engine, endings: seq<Ending>, n: nat)
    requires Metered(e) && n <= |e.active|
    ensures Metered(ReportUpTo(e, endings, n))
  {
    hide Metered, Transfers, Activations, ReportUpTo;
    forall id
      ensures Transfers(ReportUpTo(e, endings, n).log, id) == Transfers(e.log, id) && Activations(ReportUpTo(e, endings, n).log, id) == Activations(e.log, id)
    {
      ReportCounts(e, endings, n, id);
    }
    MeteredQuiet(e, ReportUpTo(e, endings, n));
  }

  lemma MeteredSwept(e: Engine)
    requires Metered(e)
    ensures Metered(Swept(e))
  {
    hide Metered, Transfers, Activations, Settled;
    SettledAre(e.cancelled, e.active);
    MeteredQuiet(e, Swept(e));
  }

  lemma MeteredWork(c: Client, e: Engine)
    requires Sound(e) && Metered(e)
    ensures Metered(Worked(c, e))
  {
    hide Sound, Metered, ActivateUpTo, RunUpTo;
    var activated := ActivateUpTo(c, e, |e.pending|);
    MeteredActivation(c, e, |e.pending|);
    ActivationKeeps(c, e, |e.pending|);
    MeteredRun(c, activated, |activated.active|);
  }

  lemma MeteredPump(c: Client, e: Engine, endings: seq<Ending>)
    requires Sound(e) && Metered(e)
    ensures Metered(AfterPump(c, e, endings))
  {
    hide Sound, Metered, Worked, ReportUpTo, Swept;
    var worked := Worked(c, e);
    MeteredWork(c, e);
    MeteredReports(worked, endings, |worked.active|);
    MeteredSwept(ReportUpTo(worked, endings, |worked.active|));
  }

  lemma MeteredCrash(c: Client, e: Engine, scans: nat, runs: nat, torn: bool)
    requires Sound(e) && Metered(e)
    ensures forall id :: Transfers(Interrupted(c, e, scans, runs, torn).log, id) <= MOST_TRANSFERS * Activations(Interrupted(c, e, scans, runs, torn).log, id)
  {
    hide Sound, Transfers, Activations, ActivateUpTo, RunUpTo, AfterStreaming;
    var activated := ActivateUpTo(c, e, Min(scans, |e.pending|));
    MeteredActivation(c, e, Min(scans, |e.pending|));
    ActivationKeeps(c, e, Min(scans, |e.pending|));
    var n := Min(runs, |activated.active|);
    MeteredRun(c, activated, n);
    RunKeeps(c, activated, n);
    var ran := RunUpTo(c, activated, n);
    if torn && n < |ran.active| && !Skipped(ran, n) && FirstUnfinished(ran.active[n].plan.segments) < |ran.active[n].plan.segments| {
      MeteredStreaming(c, ran, n, FirstUnfinished(ran.active[n].plan.segments));
    }
  }

  lemma MeteredStep(c: Client, e: Engine, call: Call)
    requires Sound(e) && Resting(e) && Metered(e)
    ensures Metered(Step(c, e, call))
  {
    hide Sound, Metered, Transfers, Activations, AfterPump, Interrupted, ReportsDone, WithoutRecord, WithoutActive;
    match call
    case Pump(endings) => MeteredPump(c, e, endings);
    case Crash(scans, runs, torn) =>
      MeteredCrash(c, e, scans, runs, torn);
      MeteredNobody(Step(c, e, call));
    case Cancel(id, _) =>
      WithoutActiveIs(e.active, id);
      MeteredQuiet(e, Step(c, e, call));
    case Restart(r) =>
      WithoutActiveIs(e.active, r.id);
      MeteredQuiet(e, Step(c, e, call));
    case CrashInReports(endings) =>
      MeteredReportsDone(c, e, endings);
      MeteredEnded(ReportsDone(c, e, endings), Step(c, e, call));
    case _ =>
      MeteredQuiet(e, Step(c, e, call));
  }

  lemma MeteredReportsDone(c: Client, e: Engine, endings: seq<Ending>)
    requires Sound(e) && Metered(e)
    ensures Metered(ReportsDone(c, e, endings))
  {
    hide Sound, Metered, Worked, ReportUpTo;
    MeteredWork(c, e);
    MeteredReports(Worked(c, e), endings, Min(|endings|, |Worked(c, e).active|));
  }

  lemma MeteredEnded(e: Engine, f: Engine)
    requires Metered(e) && f.active == [] && f.log == e.log
    ensures Metered(f)
  {
  }

  lemma MeteredNobody(e: Engine)
    requires e.active == [] && forall id :: Transfers(e.log, id) <= MOST_TRANSFERS * Activations(e.log, id)
    ensures Metered(e)
  {
  }

  lemma {:induction false} RunIsMetered(c: Client, calls: seq<Call>)
    ensures Metered(Run(c, calls))
  {
    hide Step, Metered;
    if calls == [] {
      MeteredNobody(Empty());
    } else {
      RunIsMetered(c, calls[..|calls| - 1]);
      RunIsSound(c, calls[..|calls| - 1]);
      MeteredStep(c, Run(c, calls[..|calls| - 1]), calls[|calls| - 1]);
    }
  }

  /** Over any run, with crashes anywhere, a download is transferred at most sixty-four times an activation. */
  lemma TransfersAreBounded(c: Client, calls: seq<Call>, id: Text)
    ensures Transfers(Run(c, calls).log, id) <= 64 * Activations(Run(c, calls).log, id)
  {
    hide Run;
    RunIsMetered(c, calls);
  }

  // How a download ends.

  /** How many times a download was reported completed or failed. */
  function Reports(e: Engine, id: Text): nat {
    multiset(e.completed)[id] + multiset(e.failed)[id]
  }

  lemma {:induction false} ActivationLeaves(c: Client, e: Engine, scans: nat, i: nat)
    requires Sound(e) && i < |e.active|
    ensures var f := ActivateUpTo(c, e, scans);
      && i < |f.active| && f.active[i] == e.active[i] && Reports(f, e.active[i].record.id) == Reports(e, e.active[i].record.id)
    decreases scans
  {
    hide ActivateOne, Sound, Reports;
    if |e.active| < MAX_ACTIVE && e.pending != [] && scans > 0 {
      ActivateOneKeeps(c, e);
      ActivateOneLeaves(c, e, i);
      ActivationLeaves(c, ActivateOne(c, e), scans - 1, i);
    }
  }

  lemma ActivateOneLeaves(c: Client, e: Engine, i: nat)
    requires Sound(e) && i < |e.active| && e.pending != []
    ensures var f := ActivateOne(c, e);
      && i < |f.active| && f.active[i] == e.active[i] && Reports(f, e.active[i].record.id) == Reports(e, e.active[i].record.id)
  {
    hide NewPlan, RestoredPlan, Sound, Inspected, StagedFile, Kept, Started, Reports;
    var r := e.pending[0];
    var m := Inspected(c.inspect(e.calls, r.url, r.referrer));
    if m.Some? {
      StartedParts(e.(pending := e.pending[1..], calls := e.calls + 1, log := e.log + [Described(r, m)]), r, m.value);
    }
    FrontTaken(e);
    assert r.id != e.active[i].record.id;
    OtherReported(e, ActivateOne(c, e), r.id, e.active[i].record.id);
  }

  lemma OtherReported(e: Engine, f: Engine, id: Text, other: Text)
    requires f.completed == e.completed && (f.failed == e.failed || f.failed == e.failed + [id]) && other != id
    ensures Reports(f, other) == Reports(e, other)
  {
  }

  lemma RunOneLeaves(c: Client, e: Engine, i: nat)
    requires i < |e.active|
    ensures RunOne(c, e, i).completed == e.completed && RunOne(c, e, i).failed == e.failed
  {
    hide AfterResult, FilesAfter, ResultAt, Saved, NameOf;
  }

  lemma {:induction false} RunLeaves(c: Client, e: Engine, n: nat)
    requires n <= |e.active|
    ensures RunUpTo(c, e, n).completed == e.completed && RunUpTo(c, e, n).failed == e.failed
  {
    hide RunOne;
    if n > 0 {
      RunLeaves(c, e, n - 1);
      RunOneLeaves(c, RunUpTo(c, e, n - 1), n - 1);
    }
  }

  /** The turn of one download in the run loop of a pump, and what the rest of the loop leaves of it. */
  lemma RunReaches(c: Client, e: Engine, n: nat, i: nat)
    requires Sound(e) && i < n <= |e.active|
    ensures RunUpTo(c, e, n).active[i] == RunOne(c, RunUpTo(c, e, i), i).active[i]
    ensures RunUpTo(c, e, i).active[i] == e.active[i]
    decreases n
  {
    hide Sound, RunOne;
    RunKeeps(c, e, i);
    if i + 1 < n {
      RunReaches(c, e, n - 1, i);
      RunKeeps(c, e, n - 1);
      RunOneKeeps(c, RunUpTo(c, e, n - 1), n - 1);
    }
  }

  /** After its turn a download that was neither paused nor cancelled is finished, failed, or has less budget. */
  lemma TurnAdvances(c: Client, e: Engine, i: nat)
    requires Sound(e) && i < |e.active| && !Skipped(e, i)
    ensures var a, b := e.active[i], RunOne(c, e, i).active[i];
      b.finished || b.failed || (Budget(b.plan.segments) < Budget(a.plan.segments) && b.spent == a.spent + 1)
  {
    hide Sound, AfterTransfer, Fills, Retries, Budget, FilesAfter, ResultOf, Saved;
    var a := e.active[i];
    var k := FirstUnfinished(a.plan.segments);
    if k < |a.plan.segments| {
      TransferCosts(a.plan.segments, k, ResultAt(c, e, i, k));
    }
  }

  lemma OneReport(e: Engine, a: Active, ending: Ending, id: Text)
    requires !(a.finished && a.failed)
    ensures Reports(ReportOne(e, a, ending), id) == Reports(e, id) + if a.record.id == id && (a.finished || a.failed) then 1 else 0
  {
    hide Finish, CompleteNow;
    FinishKeepsLists(NotedComplete(e, a), a.record.id, ending);
  }

  lemma NotBoth(e: Engine, i: nat)
    requires Sound(e) && i < |e.active|
    ensures !(e.active[i].finished && e.active[i].failed)
  {
    assert ActiveSound(e.active[i]);
    hide Underway, Budget;
  }

  lemma {:induction false} ReportedOnce(e: Engine, endings: seq<Ending>, n: nat, i: nat)
    requires Sound(e) && n <= |e.active| && i < |e.active|
    ensures Reports(ReportUpTo(e, endings, n), e.active[i].record.id) ==
              Reports(e, e.active[i].record.id) + if i < n && (e.active[i].finished || e.active[i].failed) then 1 else 0
  {
    hide Sound, ReportOne, Reports;
    if n > 0 {
      ReportedOnce(e, endings, n - 1, i);
      SoundIds(e);
      NotBoth(e, n - 1);
      OneReport(ReportUpTo(e, endings, n - 1), e.active[n - 1], EndingAt(endings, n - 1), e.active[i].record.id);
    }
  }

  /** A pump ends a running download by exactly one report, or moves it on and leaves it strictly less budget:
      so an activation that is not paused or cancelled ends within as many pumps as it has budget. */
  lemma PumpSettles(c: Client, e: Engine, endings: seq<Ending>, i: nat)
    requires Sound(e) && Resting(e) && i < |e.active|
    requires e.active[i].record.id !in e.paused && e.active[i].record.id !in e.cancelled
    ensures var f, a := AfterPump(c, e, endings), e.active[i];
      || (!IsActive(f, a.record.id) && Reports(f, a.record.id) == Reports(e, a.record.id) + 1)
      || ((exists b :: b in f.active && b.record == a.record && b.spent == a.spent + 1 && Budget(b.plan.segments) < Budget(a.plan.segments))
          && Reports(f, a.record.id) == Reports(e, a.record.id))
  {
    hide Sound, RunOne, RunUpTo, ActivateUpTo, ReportUpTo, Settled, Budget;
    var activated := ActivateUpTo(c, e, |e.pending|);
    var n := |activated.active|;
    var ran := RunUpTo(c, activated, n);
    var a := e.active[i];
    ActivationLeaves(c, e, |e.pending|, i);
    ActivationKeeps(c, e, |e.pending|);
    RunKeeps(c, activated, i);
    RunKeeps(c, activated, n);
    RunLeaves(c, activated, n);
    RunReaches(c, activated, n, i);
    TurnAdvances(c, RunUpTo(c, activated, i), i);
    ReportedOnce(ran, endings, n, i);
    ReportFrame(ran, endings, n);
    SettledAre(ran.cancelled, ran.active);
    SoundIds(ran);
    var b := ran.active[i];
    assert b.record == a.record;
    if b.finished || b.failed {
      forall j | 0 <= j < |Settled(ran.cancelled, ran.active)|
        ensures Settled(ran.cancelled, ran.active)[j].record.id != a.record.id
      {
        var x := Settled(ran.cancelled, ran.active)[j];
        assert x in ran.active;
        var k :| 0 <= k < |ran.active| && ran.active[k] == x;
        assert k != i;
      }
    } else {
      assert b in Settled(ran.cancelled, ran.active);
    }
  }

  // How a download ends, over runs.

  /** The state after a list of calls. */
  function Steps(c: Client, e: Engine, calls: seq<Call>): Engine
    decreases |calls|
  {
    if calls == [] then e else Steps(c, Step(c, e, calls[0]), calls[1..])
  }

  lemma {:induction false} RunInTwo(c: Client, calls: seq<Call>, more: seq<Call>)
    ensures Run(c, calls + more) == Steps(c, Run(c, calls), more)
    decreases |more|
  {
    hide Step;
    if more == [] {
      assert calls + more == calls;
    } else {
      assert (calls + [more[0]]) + more[1..] == calls + more;
      assert (calls + [more[0]])[..|calls|] == calls;
      RunInTwo(c, calls + [more[0]], more[1..]);
    }
  }

  function Pumps(calls: seq<Call>): nat {
    if calls == [] then 0 else (if calls[0].Pump? then 1 else 0) + Pumps(calls[1..])
  }

  /** A call that neither pauses, cancels nor restarts this download, nor ends the program. */
  predicate LetsBe(call: Call, id: Text) {
    match call
    case Pause(x) => x != id
    case Cancel(x, _) => x != id
    case Restart(r) => r.id != id
    case Crash(_, _, _) => false
    case CrashInReports(_) => false
    case _ => true
  }

  /** An active download that runs freely. */
  predicate RunsFreely(e: Engine, a: Active) {
    a in e.active && a.record.id !in e.paused && a.record.id !in e.cancelled
  }

  lemma StillFree(e: Engine, f: Engine, a: Active)
    requires RunsFreely(e, a) && a in f.active && f.completed == e.completed && f.failed == e.failed
    requires a.record.id !in f.paused && a.record.id !in f.cancelled
    ensures RunsFreely(f, a) && Reports(f, a.record.id) == Reports(e, a.record.id)
  {
  }

  lemma CancelLetsBe(e: Engine, id: Text, drops: Option<Text>, a: Active)
    requires RunsFreely(e, a) && a.record.id != id
    ensures RunsFreely(Withdrawn(e, id, drops), a) && Reports(Withdrawn(e, id, drops), a.record.id) == Reports(e, a.record.id)
  {
    hide WithoutRecord, WithoutActive, Reports;
    WithoutActiveIs(e.active, id);
    StillFree(e, Withdrawn(e, id, drops), a);
  }

  lemma RestartLetsBe(e: Engine, r: Record, a: Active)
    requires RunsFreely(e, a) && a.record.id != r.id
    ensures RunsFreely(Restarted(e, r), a) && Reports(Restarted(e, r), a.record.id) == Reports(e, a.record.id)
  {
    hide Withdrawn, Reports, CanQueue;
    CancelLetsBe(e, r.id, Some(r.name), a);
    StillFree(Withdrawn(e, r.id, Some(r.name)), Restarted(e, r), a);
  }

  lemma OthersLetBe(c: Client, e: Engine, call: Call, a: Active)
    requires RunsFreely(e, a) && LetsBe(call, a.record.id) && !call.Pump?
    ensures RunsFreely(Step(c, e, call), a)
    ensures Reports(Step(c, e, call), a.record.id) == Reports(e, a.record.id)
  {
    hide Withdrawn, Restarted, AfterPump, Interrupted, CanQueue, IsPending, IsActive, HasFile, HomeOf, Reports;
    match call
    case Cancel(x, drops) => CancelLetsBe(e, x, drops, a);
    case Restart(r) => RestartLetsBe(e, r, a);
    case Enqueue(r) => QueueLetsBe(e, r, a);
    case Prepare(r) => PrepareLetsBe(e, r, a);
    case _ => StillFree(e, Step(c, e, call), a);
  }

  lemma PrepareLetsBe(e: Engine, r: Record, a: Active)
    requires RunsFreely(e, a)
    ensures RunsFreely(HasFile(e, r), a) && Reports(HasFile(e, r), a.record.id) == Reports(e, a.record.id)
  {
    hide Reports;
    StillFree(e, HasFile(e, r), a);
  }

  lemma QueueLetsBe(e: Engine, r: Record, a: Active)
    requires RunsFreely(e, a)
    ensures RunsFreely(AfterQueue(HasFile(e, r), r), a) && Reports(AfterQueue(HasFile(e, r), r), a.record.id) == Reports(e, a.record.id)
  {
    hide Reports, CanQueue;
    StillFree(e, AfterQueue(HasFile(e, r), r), a);
  }

  /** A pump ends it, or leaves it running freely with less budget. */
  lemma PumpMovesOn(c: Client, e: Engine, endings: seq<Ending>, a: Active) returns (b: Active)
    requires Sound(e) && Resting(e) && RunsFreely(e, a)
    ensures var f, id := AfterPump(c, e, endings), a.record.id;
      || (!IsActive(f, id) && Reports(f, id) == Reports(e, id) + 1)
      || (RunsFreely(f, b) && b.record == a.record && Budget(b.plan.segments) < Budget(a.plan.segments) && Reports(f, id) == Reports(e, id))
  {
    hide Sound, Resting, AfterPump, Budget, Reports;
    var i :| 0 <= i < |e.active| && e.active[i] == a;
    PumpSettles(c, e, endings, i);
    PumpGatesKept(c, e, endings);
    b := a;
    var f := AfterPump(c, e, endings);
    if IsActive(f, a.record.id) || Reports(f, a.record.id) != Reports(e, a.record.id) + 1 {
      var x :| x in f.active && x.record == a.record && x.spent == a.spent + 1 && Budget(x.plan.segments) < Budget(a.plan.segments);
      b := x;
    }
  }

  lemma PumpGatesKept(c: Client, e: Engine, endings: seq<Ending>)
    requires Sound(e)
    ensures AfterPump(c, e, endings).paused == e.paused && AfterPump(c, e, endings).cancelled == e.cancelled
  {
    hide Sound, Worked, ReportUpTo, Settled;
    WorkKeeps(c, e);
    ReportFrame(Worked(c, e), endings, |Worked(c, e).active|);
  }

  /** So a download that is let be ends, with one report, after at most as many pumps as it has budget, and one more. */
  lemma {:induction false} EndsInTime(c: Client, e: Engine, a: Active, more: seq<Call>) returns (n: nat)
    requires Sound(e) && Resting(e) && RunsFreely(e, a)
    requires forall call | call in more :: LetsBe(call, a.record.id)
    requires Pumps(more) > Budget(a.plan.segments)
    ensures n <= |more| && Pumps(more[..n]) <= Budget(a.plan.segments) + 1
    ensures !IsActive(Steps(c, e, more[..n]), a.record.id)
    ensures Reports(Steps(c, e, more[..n]), a.record.id) == Reports(e, a.record.id) + 1
    ensures forall k: nat | k < n ::
              IsActive(Steps(c, e, more[..k]), a.record.id) && Reports(Steps(c, e, more[..k]), a.record.id) == Reports(e, a.record.id)
    decreases |more|
  {
    hide Sound, Resting, Step, Budget, Reports, LetsBe, IsActive;
    var f := Step(c, e, more[0]);
    StepKeeps(c, e, more[0]);
    FreeIsActive(e, a);
    assert Steps(c, e, more[..0]) == e;
    var b := a;
    if more[0].Pump? {
      PumpIsStep(c, e, more[0].endings);
      b := PumpMovesOn(c, e, more[0].endings, a);
      if !IsActive(f, a.record.id) && Reports(f, a.record.id) == Reports(e, a.record.id) + 1 {
        assert more[..1] == [more[0]];
        assert Steps(c, e, [more[0]]) == f;
        return 1;
      }
    } else {
      OthersLetBe(c, e, more[0], a);
    }
    var m := EndsInTime(c, f, b, more[1..]);
    n := m + 1;
    Shifted(c, e, more, m);
    forall k: nat | k < n
      ensures IsActive(Steps(c, e, more[..k]), a.record.id) && Reports(Steps(c, e, more[..k]), a.record.id) == Reports(e, a.record.id)
    {
      if k > 0 {
        Shifted(c, e, more, k - 1);
      }
    }
  }

  lemma FreeIsActive(e: Engine, a: Active)
    requires RunsFreely(e, a)
    ensures IsActive(e, a.record.id)
  {
  }

  lemma PumpIsStep(c: Client, e: Engine, endings: seq<Ending>)
    ensures Step(c, e, Pump(endings)) == AfterPump(c, e, endings)
  {
  }

  lemma Shifted(c: Client, e: Engine, more: seq<Call>, m: nat)
    requires more != [] && m <= |more[1..]|
    ensures Steps(c, e, more[..m + 1]) == Steps(c, Step(c, e, more[0]), more[1..][..m])
    ensures Pumps(more[..m + 1]) == (if more[0].Pump? then 1 else 0) + Pumps(more[1..][..m])
  {
    hide Step;
    assert more[..m + 1][1..] == more[1..][..m];
  }

  /** Over runs: from any state of any run, a download that is active and then neither paused, cancelled nor cut off
      by the end of the program ends once, within one pump more than its budget. */
  lemma ActivationEndsOnce(c: Client, calls: seq<Call>, a: Active, more: seq<Call>)
    requires RunsFreely(Run(c, calls), a)
    requires forall call | call in more :: LetsBe(call, a.record.id)
    requires Pumps(more) > Budget(a.plan.segments)
    ensures exists n: nat | n <= |more| ::
              && Pumps(more[..n]) <= Budget(a.plan.segments) + 1
              && !IsActive(Run(c, calls + more[..n]), a.record.id)
              && Reports(Run(c, calls + more[..n]), a.record.id) == Reports(Run(c, calls), a.record.id) + 1
              && forall k: nat | k < n :: IsActive(Run(c, calls + more[..k]), a.record.id)
  {
    hide Run, Sound, Resting, Budget, Reports, LetsBe, IsActive, Steps;
    RunIsSound(c, calls);
    var n := EndsInTime(c, Run(c, calls), a, more);
    forall k: nat | k <= n
      ensures Run(c, calls + more[..k]) == Steps(c, Run(c, calls), more[..k])
    {
      RunInTwo(c, calls, more[..k]);
    }
  }

  // Nothing ends that was not begun.

  /** Each end reported of a download is of an activation of its own, or of an inspection that failed;
      an activation that still runs has not ended. */
  ghost predicate Accounted(e: Engine) {
    forall id :: Tally(e.log, Concluding, id) + (if IsActive(e, id) then 1 else 0) <= Tally(e.log, Activating, id) + Tally(e.log, Refusing, id)
  }

  /** The log grew by events that neither begin, refuse nor end anything. */
  ghost predicate NoTallies(e: Engine, f: Engine) {
    forall kind, id | kind != Transferring :: Tally(f.log, kind, id) == Tally(e.log, kind, id)
  }

  lemma AccountedQuiet(e: Engine, f: Engine)
    requires Accounted(e) && NoTallies(e, f)
    requires forall id | IsActive(f, id) :: IsActive(e, id)
    ensures Accounted(f)
  {
    hide Tally;
  }

  lemma AccountedStart(e: Engine, r: Record, m: Metadata)
    requires Accounted(e) && !IsActive(e, r.id)
    ensures Accounted(Started(e, r, m))
  {
    hide RestoredPlan, NewPlan, Saved, Tally, Kept, StagedFile;
    var f := Started(e, r, m);
    var p := RestoredPlan(e.checkpoints, NewPlan(r, m, MAX_SEGMENTS));
    RestoredId(e.checkpoints, r, m);
    var begun := Activated(p, StagedFile(e, r.id), Kept(e, NewPlan(r, m, MAX_SEGMENTS)));
    assert f.log == e.log + [begun] + [Progress(p)];
    forall id
      ensures IsActive(f, id) ==> IsActive(e, id) || id == r.id
      ensures Tally(f.log, Concluding, id) == Tally(e.log, Concluding, id) && Tally(f.log, Refusing, id) == Tally(e.log, Refusing, id)
      ensures Tally(f.log, Activating, id) == Tally(e.log, Activating, id) + if id == r.id then 1 else 0
    {
      forall kind
        ensures Tally(f.log, kind, id) == Tally(e.log, kind, id) + if Is(kind, begun, id) then 1 else 0
      {
        TallyOne(e.log, begun, kind, id);
        TallyOne(e.log + [begun], Progress(p), kind, id);
      }
    }
  }

  lemma AccountedActivateOne(c: Client, e: Engine)
    requires Sound(e) && Accounted(e) && e.pending != []
    ensures Accounted(ActivateOne(c, e))
  {
    hide Started, Accounted, Tally, Sound, NewPlan, Inspected;
    var r := e.pending[0];
    var m := Inspected(c.inspect(e.calls, r.url, r.referrer));
    var asked := e.(pending := e.pending[1..], calls := e.calls + 1, log := e.log + [Described(r, m)]);
    FrontTaken(e);
    AccountedAnswer(e, asked, r, m);
    var f := ActivateOne(c, e);
    if r.id in e.cancelled || r.id in e.paused {
      AccountedQuiet(e, f);
    } else if m.Some? {
      AnsweredHasSegments(c.inspect(e.calls, r.url, r.referrer), r, m.value);
      SameActive(asked, e, r.id);
      AccountedStart(asked, r, m.value);
    }
  }

  lemma SameActive(f: Engine, e: Engine, id: Text)
    requires f.active == e.active
    ensures IsActive(f, id) == IsActive(e, id)
  {
  }

  lemma AnsweredHasSegments(head: Option<Head>, r: Record, m: Metadata)
    requires Inspected(head) == Some(m)
    ensures NewPlan(r, m, MAX_SEGMENTS).segments != []
  {
    PlanIsFair(r, m, MAX_SEGMENTS);
  }

  lemma AccountedAnswer(e: Engine, asked: Engine, r: Record, m: Option<Metadata>)
    requires Accounted(e) && asked.log == e.log + [Described(r, m)] && asked.active == e.active
    ensures Accounted(asked)
    ensures m.None? ==> Accounted(FailedId(asked, r.id))
  {
    hide Tally;
    forall id
      ensures IsActive(asked, id) == IsActive(e, id) && IsActive(FailedId(asked, r.id), id) == IsActive(e, id)
      ensures forall kind :: Tally(asked.log, kind, id) == Tally(e.log, kind, id) + if Is(kind, Described(r, m), id) then 1 else 0
      ensures forall kind :: Tally(FailedId(asked, r.id).log, kind, id) == Tally(asked.log, kind, id) + if Is(kind, Failure(r.id), id) then 1 else 0
    {
      forall kind
        ensures Tally(asked.log, kind, id) == Tally(e.log, kind, id) + if Is(kind, Described(r, m), id) then 1 else 0
        ensures Tally(FailedId(asked, r.id).log, kind, id) == Tally(asked.log, kind, id) + if Is(kind, Failure(r.id), id) then 1 else 0
      {
        TallyOne(e.log, Described(r, m), kind, id);
        TallyOne(asked.log, Failure(r.id), kind, id);
      }
    }
  }

  lemma {:induction false} AccountedActivation(c: Client, e: Engine, scans: nat)
    requires Sound(e) && Accounted(e)
    ensures Accounted(ActivateUpTo(c, e, scans))
    decreases scans
  {
    hide ActivateOne, Sound, Accounted;
    if |e.active| < MAX_ACTIVE && e.pending != [] && scans > 0 {
      AccountedActivateOne(c, e);
      ActivateOneKeeps(c, e);
      AccountedActivation(c, ActivateOne(c, e), scans - 1);
    }
  }

  /** The run loop transfers and saves, which begins and ends nothing. */
  lemma RunOneTallies(c: Client, e: Engine, i: nat)
    requires i < |e.active|
    ensures NoTallies(e, RunOne(c, e, i))
    ensures forall id :: IsActive(RunOne(c, e, i), id) ==> IsActive(e, id)
  {
    hide Tally, FilesAfter, ResultOf, AfterTransfer, TotalDone, Saved;
    if !Skipped(e, i) {
      var a := e.active[i];
      var k := FirstUnfinished(a.plan.segments);
      var f := RunOne(c, e, i);
      var last := if k == |a.plan.segments| then a.(finished := true) else AfterResult(a, k, ResultAt(c, e, i, k));
      forall kind, id | kind != Transferring
        ensures Tally(f.log, kind, id) == Tally(e.log, kind, id)
      {
        if k == |a.plan.segments| {
          TallyOne(e.log, Progress(last.plan), kind, id);
        } else {
          TallyOne(e.log, Transferred(RequestOf(a, k)), kind, id);
          TallyOne(e.log + [Transferred(RequestOf(a, k))], Progress(last.plan), kind, id);
        }
      }
    }
  }

  lemma {:induction false} RunTallies(c: Client, e: Engine, n: nat)
    requires n <= |e.active|
    ensures NoTallies(e, RunUpTo(c, e, n))
    ensures forall id :: IsActive(RunUpTo(c, e, n), id) ==> IsActive(e, id)
  {
    hide RunOne, Tally, IsActive;
    if n > 0 {
      RunTallies(c, e, n - 1);
      RunOneTallies(c, RunUpTo(c, e, n - 1), n - 1);
    }
  }

  lemma ReportTallies(e: Engine, a: Active, ending: Ending, kind: Kind, id: Text)
    requires a.plan.id == a.record.id && !(a.finished && a.failed)
    ensures Tally(ReportOne(e, a, ending).log, kind, id) ==
              Tally(e.log, kind, id) + if kind == Concluding && a.record.id == id && (a.finished || a.failed) then 1 else 0
  {
    hide Finish, StagedFile, BasisOf;
    FinishKeepsLists(NotedComplete(e, a), a.record.id, ending);
    TallyOne(e.log, CompleteNow(e, a), kind, id);
    TallyOne(e.log, Failure(a.record.id), kind, id);
  }

  lemma {:induction false} ReportsTally(e: Engine, endings: seq<Ending>, n: nat, kind: Kind, id: Text)
    requires Sound(e) && n <= |e.active|
    ensures var before, after := Tally(e.log, kind, id), Tally(ReportUpTo(e, endings, n).log, kind, id);
      && (after == before || (kind == Concluding && after == before + 1 && EndsWithin(e, n, id)))
  {
    hide Sound, ReportOne, Tally;
    if n > 0 {
      ReportsTally(e, endings, n - 1, kind, id);
      NotBoth(e, n - 1);
      SoundNames(e, n - 1);
      ReportTallies(ReportUpTo(e, endings, n - 1), e.active[n - 1], EndingAt(endings, n - 1), kind, id);
      SoundIds(e);
    }
  }

  /** One of the first n active downloads is this one, and is over. */
  ghost predicate EndsWithin(e: Engine, n: nat, id: Text)
    requires n <= |e.active|
  {
    exists i | 0 <= i < n :: e.active[i].record.id == id && (e.active[i].finished || e.active[i].failed)
  }

  lemma AccountedClosed(e: Engine, endings: seq<Ending>)
    requires Sound(e) && Accounted(e)
    ensures Accounted(Closed(e, endings))
  {
    hide Sound, Tally, ReportUpTo, Settled;
    var f := Closed(e, endings);
    ReportFrame(e, endings, |e.active|);
    SettledAre(e.cancelled, e.active);
    SoundIds(e);
    forall id
      ensures Tally(f.log, Concluding, id) + (if IsActive(f, id) then 1 else 0) <= Tally(f.log, Activating, id) + Tally(f.log, Refusing, id)
    {
      forall kind {
        ReportsTally(e, endings, |e.active|, kind, id);
      }
      StillActive(e, f.active, id);
    }
  }

  lemma StillActive(e: Engine, fewer: seq<Active>, id: Text)
    requires forall i, j | 0 <= i < j < |e.active| :: e.active[i].record.id != e.active[j].record.id
    requires forall a | a in fewer :: a in e.active && !a.finished && !a.failed
    ensures (exists i | 0 <= i < |fewer| :: fewer[i].record.id == id) ==> IsActive(e, id) && !EndsWithin(e, |e.active|, id)
    ensures EndsWithin(e, |e.active|, id) ==> IsActive(e, id)
  {
    if i :| 0 <= i < |fewer| && fewer[i].record.id == id {
      assert fewer[i] in fewer;
      var j :| 0 <= j < |e.active| && e.active[j] == fewer[i];
    }
  }

  lemma AccountedWork(c: Client, e: Engine)
    requires Sound(e) && Accounted(e)
    ensures Accounted(Worked(c, e))
  {
    hide Sound, Accounted, NoTallies, ActivateUpTo, RunUpTo, IsActive;
    var activated := ActivateUpTo(c, e, |e.pending|);
    AccountedActivation(c, e, |e.pending|);
    ActivationKeeps(c, e, |e.pending|);
    RunTallies(c, activated, |activated.active|);
    AccountedQuiet(activated, Worked(c, e));
  }

  lemma AccountedPump(c: Client, e: Engine, endings: seq<Ending>)
    requires Sound(e) && Accounted(e)
    ensures Accounted(AfterPump(c, e, endings))
  {
    hide Sound, Accounted, Worked, Closed;
    WorkKeeps(c, e);
    AccountedWork(c, e);
    AccountedClosed(Worked(c, e), endings);
  }

  /** Ended in the middle of the reports: what was reported was active until then. */
  lemma AccountedReports(c: Client, e: Engine, endings: seq<Ending>)
    requires Sound(e) && Accounted(e)
    ensures Accounted(Ended(ReportsDone(c, e, endings)))
  {
    hide Sound, Tally, ReportUpTo, Worked;
    var worked, f := Worked(c, e), Ended(ReportsDone(c, e, endings));
    var n := Min(|endings|, |worked.active|);
    WorkKeeps(c, e);
    AccountedWork(c, e);
    forall id
      ensures Tally(f.log, Concluding, id) + (if IsActive(f, id) then 1 else 0) <= Tally(f.log, Activating, id) + Tally(f.log, Refusing, id)
    {
      forall kind {
        ReportsTally(worked, endings, n, kind, id);
      }
      assert EndsWithin(worked, n, id) ==> IsActive(worked, id);
    }
  }

  lemma AccountedCrash(c: Client, e: Engine, scans: nat, runs: nat, torn: bool)
    requires Sound(e) && Accounted(e)
    ensures Accounted(Ended(Interrupted(c, e, scans, runs, torn)))
  {
    hide Sound, Accounted, Tally, ActivateUpTo, RunUpTo, FilesAfter, IsActive;
    var activated := ActivateUpTo(c, e, Min(scans, |e.pending|));
    AccountedActivation(c, e, Min(scans, |e.pending|));
    ActivationKeeps(c, e, Min(scans, |e.pending|));
    var n := Min(runs, |activated.active|);
    RunTallies(c, activated, n);
    var ran := RunUpTo(c, activated, n);
    AccountedQuiet(activated, ran);
    var f := Interrupted(c, e, scans, runs, torn);
    forall kind, id | kind != Transferring
      ensures Tally(f.log, kind, id) == Tally(ran.log, kind, id)
    {
      if f != ran {
        TallyOne(ran.log, f.log[|ran.log|], kind, id);
      }
    }
    NobodyActive(Ended(f));
    AccountedQuiet(ran, Ended(f));
  }

  lemma NobodyActive(e: Engine)
    requires e.active == []
    ensures forall id :: !IsActive(e, id)
  {
  }

  lemma AccountedStep(c: Client, e: Engine, call: Call)
    requires Sound(e) && Accounted(e)
    ensures Accounted(Step(c, e, call))
  {
    hide Sound, Accounted, AfterPump, Interrupted, ReportsDone, WithoutRecord, WithoutActive, Tally;
    match call
    case Pump(endings) => AccountedPump(c, e, endings);
    case CrashInReports(endings) => AccountedReports(c, e, endings);
    case Crash(scans, runs, torn) => AccountedCrash(c, e, scans, runs, torn);
    case Cancel(id, _) =>
      WithoutActiveIs(e.active, id);
      FewerAccounted(e, Step(c, e, call));
    case Restart(r) =>
      WithoutActiveIs(e.active, r.id);
      FewerAccounted(e, Step(c, e, call));
    case _ => FewerAccounted(e, Step(c, e, call));
  }

  lemma FewerAccounted(e: Engine, f: Engine)
    requires Accounted(e) && f.log == e.log && forall a | a in f.active :: a in e.active
    ensures Accounted(f)
  {
    hide Tally, Accounted;
    forall id | IsActive(f, id)
      ensures IsActive(e, id)
    {
      var i :| 0 <= i < |f.active| && f.active[i].record.id == id;
      assert f.active[i] in f.active;
    }
    AccountedQuiet(e, f);
  }

  /** Over every run a download is reported ended at most as often as it was activated or its inspection failed,
      and an activation that is still running has not been reported. */
  lemma {:induction false} EndsAreAccounted(c: Client, calls: seq<Call>)
    ensures Accounted(Run(c, calls))
  {
    hide Step, Accounted, Sound, Resting;
    if calls == [] {
      NothingEnded();
    } else {
      EndsAreAccounted(c, calls[..|calls| - 1]);
      RunIsSound(c, calls[..|calls| - 1]);
      AccountedStep(c, Run(c, calls[..|calls| - 1]), calls[|calls| - 1]);
    }
  }

  lemma NothingEnded()
    ensures Accounted(Empty())
  {
    NobodyActive(Empty());
  }

  // After the program restarts.

  /** A pump of one waiting download and nobody else. */
  lemma PumpOfOne(c: Client, e: Engine, endings: seq<Ending>, r: Record, m: Metadata)
    requires e.pending == [r] && e.active == [] && r.id !in e.paused && r.id !in e.cancelled
    requires Inspected(c.inspect(e.calls, r.url, r.referrer)) == Some(m)
    ensures var started := Started(e.(pending := [], calls := e.calls + 1, log := e.log + [Described(r, Some(m))]), r, m);
      && |started.active| == 1 && ActivateUpTo(c, e, 1) == started && AfterPump(c, e, endings) == Closed(RunOne(c, started, 0), endings)
  {
    hide Started, Inspected, RunOne, Closed, NewPlan;
    AnsweredHasSegments(c.inspect(e.calls, r.url, r.referrer), r, m);
    var asked := e.(pending := [], calls := e.calls + 1, log := e.log + [Described(r, Some(m))]);
    var started := Started(asked, r, m);
    StartedAlone(asked, r, m);
    assert e.pending[1..] == [];
    assert ActivateOne(c, e) == started;
    assert ActivateUpTo(c, started, 0) == started;
    assert ActivateUpTo(c, e, 1) == started;
    assert RunUpTo(c, started, 0) == started;
    assert RunUpTo(c, started, 1) == RunOne(c, started, 0);
  }

  lemma StartedAlone(e: Engine, r: Record, m: Metadata)
    requires e.active == [] && e.pending == []
    ensures var f, p := Started(e, r, m), RestoredPlan(e.checkpoints, NewPlan(r, m, MAX_SEGMENTS));
      && f.active == [Active(r, p, false, false, 0, |e.log|)] && f.pending == [] && p.id == r.id
      && f == e.(active := f.active, checkpoints := f.checkpoints, over := f.over, bases := f.bases, log := f.log)
      && f.checkpoints == Saved(e.checkpoints, p)
      && f.over == (if p.id == [] then e.over else e.over[p.id := NameOf(e, p.id)])
      && f.bases == e.bases[r.id := Basis(p, StagedFile(e, r.id))]
      && f.log == e.log + [Activated(p, StagedFile(e, r.id), Kept(e, NewPlan(r, m, MAX_SEGMENTS))), Progress(p)]
  {
    hide RestoredPlan, NewPlan, StagedFile, Kept, Saved;
    RestoredId(e.checkpoints, r, m);
  }

  /** What ends the silence of a restarted download is the end of the program: queued again after that, it is activated
      by the next pump, if the server answers. */
  lemma RestartedWakes(c: Client, calls: seq<Call>, r: Record, more: seq<Call>, endings: seq<Ending>)
    requires r.id != [] && r.url != [] && forall call | call in more :: !EndsProgram(call)
    requires Inspected(c.inspect(Run(c, calls + [Restart(r)] + more + [Crash(0, 0, false), Enqueue(r)]).calls, r.url, r.referrer)).Some?
    ensures Silent(Run(c, calls + [Restart(r)]), Run(c, calls + [Restart(r)] + more), r.id)
    ensures var before := Run(c, calls + [Restart(r)] + more + [Crash(0, 0, false), Enqueue(r)]);
      var after := Run(c, calls + [Restart(r)] + more + [Crash(0, 0, false), Enqueue(r), Pump(endings)]);
      before.log <= after.log && exists k | |before.log| <= k < |after.log| :: after.log[k].Activated? && after.log[k].plan.id == r.id
  {
    hide Run, Step, AfterPump, Started, Inspected, Dead, RunOne, Closed;
    RestartedIsDead(c, calls, r);
    CancelledIsSilent(c, calls + [Restart(r)], more, r.id);
    var e := Run(c, calls + [Restart(r)] + more);
    RunInTwo(c, calls + [Restart(r)] + more, [Crash(0, 0, false), Enqueue(r)]);
    RunInTwo(c, calls + [Restart(r)] + more, [Crash(0, 0, false), Enqueue(r), Pump(endings)]);
    var before := Run(c, calls + [Restart(r)] + more + [Crash(0, 0, false), Enqueue(r)]);
    ThreeSteps(c, e, r, endings);
    EnqueuedAlone(c, e, r);
    var m := Inspected(c.inspect(before.calls, r.url, r.referrer)).value;
    PumpOfOne(c, before, endings, r, m);
    var asked := before.(pending := [], calls := before.calls + 1, log := before.log + [Described(r, Some(m))]);
    StartedAlone(asked, r, m);
    var started := Started(asked, r, m);
    assert started.log[|before.log| + 1].Activated? && started.log[|before.log| + 1].plan.id == r.id;
    RunOneOpen(c, started, 0);
    ClosedGrows(RunOne(c, started, 0), endings);
    LogsChain(started, RunOne(c, started, 0), AfterPump(c, before, endings));
  }

  lemma LogsChain(e: Engine, f: Engine, g: Engine)
    requires e.log <= f.log && f.log <= g.log
    ensures e.log <= g.log && forall k | 0 <= k < |e.log| :: g.log[k] == e.log[k]
  {
  }

  lemma ClosedGrows(e: Engine, endings: seq<Ending>)
    ensures e.log <= Closed(e, endings).log
  {
    hide ReportUpTo, Settled;
    ReportOpen(e, endings, |e.active|);
  }

  lemma ThreeSteps(c: Client, e: Engine, r: Record, endings: seq<Ending>)
    ensures Steps(c, e, [Crash(0, 0, false), Enqueue(r)]) == Step(c, Step(c, e, Crash(0, 0, false)), Enqueue(r))
    ensures Steps(c, e, [Crash(0, 0, false), Enqueue(r), Pump(endings)]) == AfterPump(c, Step(c, Step(c, e, Crash(0, 0, false)), Enqueue(r)), endings)
  {
    hide AfterPump, Interrupted, ReportsDone;
    var a, b, d := Crash(0, 0, false), Enqueue(r), Call.Pump(endings);
    assert [a, b][1..] == [b] && [b][1..] == [] && [a, b, d][1..] == [b, d] && [b, d][1..] == [d] && [d][1..] == [];
    assert Steps(c, Step(c, e, a), [b]) == Step(c, Step(c, e, a), b);
    assert Steps(c, Step(c, Step(c, e, a), b), [d]) == Step(c, Step(c, Step(c, e, a), b), d);
  }

  lemma EnqueuedAlone(c: Client, e: Engine, r: Record)
    requires r.id != [] && r.url != []
    ensures var f := Step(c, Step(c, e, Crash(0, 0, false)), Enqueue(r));
      f.pending == [r] && f.active == [] && f.paused == {} && f.cancelled == {}
  {
    hide Interrupted;
  }

  /** No checkpoint that a run can leave fails half way: whatever download it is tried on, it applies whole or not at all. */
  lemma StoredIsAllOrNothing(c: Client, calls: seq<Call>, id: Text, r: Record, m: Metadata)
    requires id in Run(c, calls).checkpoints && m.total > 0
    ensures var blank, saved := NewPlan(r, m, MAX_SEGMENTS), Run(c, calls).checkpoints[id];
      Applied(blank, saved) ==
        if SameHeader(blank, saved) then (blank.(segments := saved.segments, done := saved.done), true) else (blank, false)
  {
    hide Run, Underway, Applied, SameHeader, NewPlan, Layout, SegmentCount;
    RunIsSound(c, calls);
    CheckpointsGenuine(Run(c, calls));
    var saved := Run(c, calls).checkpoints[id];
    assert CheckpointOf(PlanOf(saved)) == saved;
    CountBounds(r, m, MAX_SEGMENTS);
    NewPlanLayout(r, m);
    GenuineIsAllOrNothing(PlanOf(saved), NewPlan(r, m, MAX_SEGMENTS), SegmentCount(r, m, MAX_SEGMENTS));
  }

  lemma NewPlanLayout(r: Record, m: Metadata)
    requires 0 < SegmentCount(r, m, MAX_SEGMENTS) <= m.total
    ensures NewPlan(r, m, MAX_SEGMENTS).segments == Layout(m.total, SegmentCount(r, m, MAX_SEGMENTS))
    ensures NewPlan(r, m, MAX_SEGMENTS).metadata == m
  {
    hide Layout, SegmentCount;
  }
}
