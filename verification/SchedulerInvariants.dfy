/** What the transfer scheduler keeps over every run, whatever the client and the disk answer. */
module SchedulerInvariants {
  import opened Bytes
  import opened Wrappers
  import opened DownloadPlan
  import opened DownloadCheckpoint
  import opened StagedPaths
  import opened HttpTransport
  import opened TransferScheduler

  // Runs: the calls the download runtime makes, and crashes in the middle of a pump.

  datatype Call =
    | Enqueue(record: Record)
    | Prepare(record: Record)
    | Pause(id: Text)
    | Resume(id: Text)
    | Cancel(id: Text, drops: Option<Text>)
    | Restart(record: Record)
    | Pump(endings: seq<Ending>)
    | Crash(scans: nat, runs: nat, torn: bool)
    | CrashInReports(endings: seq<Ending>)

  function HasFile(e: Engine, r: Record): Engine {
    Prepared(e, r.id, r.name)
  }

  /** Cancelling forgets the checkpoint, and drops the staged file of the name given, if one is. */
  function Withdrawn(e: Engine, id: Text, drops: Option<Text>): Engine {
    var after := Forgot(AfterCancel(e, id), id);
    if drops.Some? then Dropped(after, StagedPath(drops.value, id)) else after
  }

  /** Restarting cancels in the scheduler, forgets the checkpoint, empties the staged file and queues again. */
  function Restarted(e: Engine, r: Record): Engine {
    AfterQueue(HasFile(Withdrawn(e, r.id, Some(r.name)), r), r)
  }

  /** The end of the program: what stays is on disk. */
  function Ended(e: Engine): Engine {
    e.(pending := [], active := [], paused := {}, cancelled := {}, completed := [], failed := [], names := map[], bases := map[])
  }

  /** What a crash leaves on disk: the pump may have stopped after any number of turns of either loop,
      and in the middle of a transfer. */
  function Interrupted(c: Client, e: Engine, scans: nat, runs: nat, torn: bool): Engine {
    var activated := ActivateUpTo(c, e, Min(scans, |e.pending|));
    var n := Min(runs, |activated.active|);
    var ran := RunUpTo(c, activated, n);
    if torn && n < |ran.active| && !Skipped(ran, n) && FirstUnfinished(ran.active[n].plan.segments) < |ran.active[n].plan.segments|
    then AfterStreaming(c, ran, n, FirstUnfinished(ran.active[n].plan.segments))
    else ran
  }

  /** What a crash leaves on disk when the transfers of a pump are done: some of the reports are made, and the callback
      of the last of them may have come no further than this ending, with its file moved and its checkpoint still there. */
  function ReportsDone(c: Client, e: Engine, endings: seq<Ending>): Engine {
    var worked := Worked(c, e);
    ReportUpTo(worked, endings, Min(|endings|, |worked.active|))
  }

  function Step(c: Client, e: Engine, call: Call): Engine {
    match call
    case Enqueue(r) => if CanQueue(e, r) then AfterQueue(HasFile(e, r), r) else e
    case Prepare(r) => if IsPending(e, r.id) || IsActive(e, r.id) then e else HasFile(e, r)
    case Pause(id) => AfterPause(e, id)
    case Resume(id) => AfterResume(e, id)
    case Cancel(id, drops) => Withdrawn(e, id, drops)
    case Restart(r) => Restarted(e, r)
    case Pump(endings) => AfterPump(c, e, endings)
    case Crash(scans, runs, torn) => Ended(Interrupted(c, e, scans, runs, torn))
    case CrashInReports(endings) => Ended(ReportsDone(c, e, endings))
  }

  function Empty(): Engine {
    Engine([], [], {}, {}, [], [], map[], map[], 0, map[], map[], map[], {}, [])
  }

  function Run(c: Client, calls: seq<Call>): Engine {
    if calls == [] then Empty() else Step(c, Run(c, calls[..|calls| - 1]), calls[|calls| - 1])
  }

  // The invariant.

  /** How many more transfers a segment can have: every one of them fills it, or uses up a retry, or fails the download. */
  function SegmentBudget(s: Segment): nat {
    if s.finished then 0 else if s.retries >= MAX_RETRIES then 1 else 1 + MAX_RETRIES - s.retries
  }

  function Budget(segments: seq<Segment>): nat {
    if segments == [] then 0 else Budget(segments[..|segments| - 1]) + SegmentBudget(segments[|segments| - 1])
  }

  ghost predicate ActiveSound(a: Active) {
    && a.record.id != [] && a.plan.id == a.record.id && a.plan.url == a.record.url
    && Underway(a.plan)
    && |a.plan.segments| <= MAX_SEGMENTS
    && !(a.finished && a.failed)
    && (a.finished ==> AllFinished(a.plan.segments))
    && a.spent + (if a.finished || a.failed then 0 else Budget(a.plan.segments)) <= (1 + MAX_RETRIES) * |a.plan.segments|
  }

  function PlanOf(c: Checkpoint): Plan {
    Plan(c.id, c.url, c.referrer, Metadata(c.total, false, c.etag, c.lastModified), c.segments, c.done)
  }

  /** A checkpoint saved from a plan that was underway. */
  ghost predicate Genuine(c: Checkpoint) {
    Underway(PlanOf(c))
  }

  ghost predicate DistinctIds(e: Engine) {
    && (forall i, j | 0 <= i < j < |e.pending| :: e.pending[i].id != e.pending[j].id)
    && (forall i, j | 0 <= i < j < |e.active| :: e.active[i].record.id != e.active[j].record.id)
    && (forall i, j | 0 <= i < |e.pending| && 0 <= j < |e.active| :: e.pending[i].id != e.active[j].record.id)
  }

  /** Holds at every point of a pump. */
  ghost predicate Sound(e: Engine) {
    && |e.active| <= MAX_ACTIVE
    && DistinctIds(e)
    && (forall i | 0 <= i < |e.pending| :: e.pending[i].id != [])
    && (forall i | 0 <= i < |e.active| :: ActiveSound(e.active[i]))
    && (forall id | id in e.checkpoints :: Genuine(e.checkpoints[id]))
  }

  /** Holds between calls: nothing finished or failed is still listed as active. */
  ghost predicate Resting(e: Engine) {
    forall i | 0 <= i < |e.active| :: !e.active[i].finished && !e.active[i].failed
  }

  // Budgets.

  lemma {:induction false} BudgetBound(segments: seq<Segment>)
    ensures Budget(segments) <= (1 + MAX_RETRIES) * |segments|
  {
    if segments != [] {
      BudgetBound(segments[..|segments| - 1]);
    }
  }

  lemma {:induction false} BudgetUpdate(segments: seq<Segment>, k: nat, s: Segment)
    requires k < |segments|
    ensures Budget(segments[k := s]) == Budget(segments) - SegmentBudget(segments[k]) + SegmentBudget(s)
  {
    var last := |segments| - 1;
    if k < last {
      assert segments[k := s][..last] == segments[..last][k := s];
      BudgetUpdate(segments[..last], k, s);
    } else {
      assert segments[k := s][..last] == segments[..last];
    }
  }

  lemma {:induction false} NoBudgetLeft(segments: seq<Segment>)
    requires AllFinished(segments)
    ensures Budget(segments) == 0
  {
    if segments != [] {
      NoBudgetLeft(segments[..|segments| - 1]);
    }
  }

  /** One transfer costs at least one of the budget, and a failure needs one to be left. */
  lemma TransferCosts(segments: seq<Segment>, k: nat, r: TransferResult)
    requires k < |segments| && !segments[k].finished
    ensures Budget(segments) >= 1
    ensures Fills(segments[k], r) || Retries(segments[k], r) ==> Budget(segments[k := AfterTransfer(segments[k], r)]) < Budget(segments)
  {
    BudgetUpdate(segments, k, AfterTransfer(segments[k], r));
    BudgetUpdate(segments, k, segments[k].(finished := true));
  }

  lemma ResultKeepsActive(a: Active, r: TransferResult)
    requires ActiveSound(a) && !a.finished && !a.failed && FirstUnfinished(a.plan.segments) < |a.plan.segments|
    ensures ActiveSound(AfterResult(a, FirstUnfinished(a.plan.segments), r))
  {
    hide AfterTransfer, Fills, Retries, Underway, Budget;
    var k := FirstUnfinished(a.plan.segments);
    TransferKeepsUnderway(a.plan, k, r);
    TransferCosts(a.plan.segments, k, r);
  }

  lemma FinishKeepsActive(a: Active)
    requires ActiveSound(a) && !a.failed && FirstUnfinished(a.plan.segments) == |a.plan.segments|
    ensures ActiveSound(a.(finished := true))
  {
    hide Underway, Budget;
  }

  // Checkpoints.

  lemma SavedIsGenuine(p: Plan)
    requires Underway(p)
    ensures Genuine(CheckpointOf(p))
  {
    hide Tiles, SameLayout, Layout, SegmentProgress, TotalDone;
    var n: nat :| 0 < n <= p.metadata.total && SameLayout(p.segments, Layout(p.metadata.total, n));
    assert SameLayout(PlanOf(CheckpointOf(p)).segments, Layout(PlanOf(CheckpointOf(p)).metadata.total, n));
  }

  /** Where a plan begins: either afresh or with exactly the progress of the saved checkpoint. */
  lemma RestoredPlanIs(checkpoints: map<Text, Checkpoint>, r: Record, m: Metadata)
    requires m.total > 0 && (r.id in checkpoints ==> Genuine(checkpoints[r.id]))
    ensures var blank := NewPlan(r, m, MAX_SEGMENTS);
      var p := RestoredPlan(checkpoints, blank);
      && Underway(p) && p == blank.(segments := p.segments, done := p.done) && |p.segments| == |blank.segments| <= MAX_SEGMENTS
      && (p == blank || (r.id in checkpoints && SameHeader(blank, checkpoints[r.id]) && p.segments == checkpoints[r.id].segments))
  {
    hide Underway, Applied, Layout, SegmentCount;
    var blank := NewPlan(r, m, MAX_SEGMENTS);
    NewPlanUnderway(r, m, MAX_SEGMENTS);
    PlanIsFair(r, m, MAX_SEGMENTS);
    CountBounds(r, m, MAX_SEGMENTS);
    if r.id in checkpoints {
      var c := checkpoints[r.id];
      assert CheckpointOf(PlanOf(c)) == c;
      GenuineIsAllOrNothing(PlanOf(c), blank, SegmentCount(r, m, MAX_SEGMENTS));
      if SameHeader(blank, c) {
        MovedUnderway(PlanOf(c), blank);
      }
    }
  }

  lemma MovedUnderway(p: Plan, q: Plan)
    requires Underway(p) && p.metadata.total == q.metadata.total
    ensures Underway(q.(segments := p.segments, done := p.done))
  {
    hide Tiles, SameLayout, Layout, SegmentProgress, TotalDone;
    var n: nat :| 0 < n <= p.metadata.total && SameLayout(p.segments, Layout(p.metadata.total, n));
    assert SameLayout(p.segments, Layout(q.metadata.total, n));
  }

  // Every turn of the pump's loops keeps the invariant.

  lemma StartKeeps(e: Engine, r: Record, m: Metadata)
    requires Sound(e) && |e.active| < MAX_ACTIVE && m.total > 0 && r.id != []
    requires !IsPending(e, r.id) && !IsActive(e, r.id)
    ensures Sound(Started(e, r, m))
    ensures Resting(e) ==> Resting(Started(e, r, m))
  {
    hide ActiveSound, RestoredPlan, NewPlan, Genuine, Kept, StagedFile, HomeOf;
    var a := Active(r, RestoredPlan(e.checkpoints, NewPlan(r, m, MAX_SEGMENTS)), false, false, 0, |e.log|);
    StartSound(e, r, m);
    ActiveUnderway(a);
    SavedIsGenuine(a.plan);
  }

  lemma StartSound(e: Engine, r: Record, m: Metadata)
    requires Sound(e) && m.total > 0 && r.id != []
    ensures ActiveSound(Active(r, RestoredPlan(e.checkpoints, NewPlan(r, m, MAX_SEGMENTS)), false, false, 0, |e.log|))
  {
    hide Underway, RestoredPlan, NewPlan, Budget, DistinctIds, Genuine;
    RestoredPlanIs(e.checkpoints, r, m);
    NewPlanNames(r, m);
    BudgetBound(RestoredPlan(e.checkpoints, NewPlan(r, m, MAX_SEGMENTS)).segments);
  }

  lemma NewPlanNames(r: Record, m: Metadata)
    ensures NewPlan(r, m, MAX_SEGMENTS).id == r.id && NewPlan(r, m, MAX_SEGMENTS).url == r.url
    ensures NewPlan(r, m, MAX_SEGMENTS).metadata == m
  {
  }

  lemma ActivateOneKeeps(c: Client, e: Engine)
    requires Sound(e) && e.pending != [] && |e.active| < MAX_ACTIVE
    ensures Sound(ActivateOne(c, e))
    ensures Resting(e) ==> Resting(ActivateOne(c, e))
    ensures ActivateOne(c, e).paused == e.paused && ActivateOne(c, e).cancelled == e.cancelled
  {
    hide Sound, Started, NewPlan, Inspected;
    var r := e.pending[0];
    var rest := e.(pending := e.pending[1..]);
    FrontTaken(e);
    var m := Inspected(c.inspect(e.calls, r.url, r.referrer));
    var asked := rest.(calls := e.calls + 1, log := e.log + [Described(r, m)]);
    SoundFrame(rest, asked);
    SoundFrame(rest, FailedId(asked, r.id));
    if r.id !in e.cancelled && r.id !in e.paused && m.Some? && NewPlan(r, m.value, MAX_SEGMENTS).segments != [] {
      SegmentsMeanBytes(r, m.value);
      StartKeeps(asked, r, m.value);
      StartedGates(asked, r, m.value);
    }
  }

  /** The first pending record taken out of the queue, or put at its end. */
  lemma FrontTaken(e: Engine)
    requires Sound(e) && e.pending != []
    ensures var r, rest := e.pending[0], e.(pending := e.pending[1..]);
      && Sound(rest) && Sound(e.(pending := e.pending[1..] + [r]))
      && r.id != [] && !IsPending(rest, r.id) && !IsActive(rest, r.id)
  {
    hide ActiveSound, Genuine;
  }

  lemma SegmentsMeanBytes(r: Record, m: Metadata)
    requires NewPlan(r, m, MAX_SEGMENTS).segments != []
    ensures m.total > 0
  {
  }

  /** What an activation changes: the active list and the log, and what is noted with them. */
  lemma StartedParts(e: Engine, r: Record, m: Metadata)
    ensures var f, p := Started(e, r, m), RestoredPlan(e.checkpoints, NewPlan(r, m, MAX_SEGMENTS));
      && f == e.(active := f.active, checkpoints := f.checkpoints, over := f.over, bases := f.bases, log := f.log)
      && f.active == e.active + [Active(r, p, false, false, 0, |e.log|)] && p.id == r.id
      && f.log == e.log + [Activated(p, StagedFile(e, r.id), Kept(e, NewPlan(r, m, MAX_SEGMENTS))), Progress(p)]
  {
    hide NewPlan, Saved, StagedFile, Kept, NameOf;
    RestoredNames(e.checkpoints, r, m);
    hide RestoredPlan;
  }

  /** One turn of the activation loop moves the first record, and touches no file. */
  predicate Moves(e: Engine, f: Engine)
    requires e.pending != []
  {
    && f.files == e.files && f.names == e.names && f.taken == e.taken
    && (f.pending == e.pending[1..] || f.pending == e.pending[1..] + [e.pending[0]])
    && (f.active == e.active || (|f.active| == |e.active| + 1 && f.active[..|e.active|] == e.active && f.active[|e.active|].record == e.pending[0]))
  }

  lemma StartMoves(e: Engine, asked: Engine, r: Record, m: Metadata)
    requires e.pending != [] && r == e.pending[0] && asked == e.(pending := e.pending[1..], calls := asked.calls, log := asked.log)
    ensures Moves(e, Started(asked, r, m))
  {
    StartedParts(asked, r, m);
    hide Started, NewPlan, RestoredPlan, StagedFile, Kept;
  }

  lemma ActivateOneMoves(c: Client, e: Engine)
    requires e.pending != []
    ensures Moves(e, ActivateOne(c, e))
  {
    hide Started, NewPlan, Inspected, Moves;
    var r := e.pending[0];
    var m := Inspected(c.inspect(e.calls, r.url, r.referrer));
    var asked := e.(pending := e.pending[1..], calls := e.calls + 1, log := e.log + [Described(r, m)]);
    if m.Some? {
      StartMoves(e, asked, r, m.value);
    }
    Unstarted(e, e.(pending := e.pending[1..]));
    Unstarted(e, e.(pending := e.pending[1..] + [r]));
    Unstarted(e, FailedId(asked, r.id));
  }

  lemma Unstarted(e: Engine, f: Engine)
    requires e.pending != [] && f.files == e.files && f.names == e.names && f.taken == e.taken && f.active == e.active
    requires f.pending == e.pending[1..] || f.pending == e.pending[1..] + [e.pending[0]]
    ensures Moves(e, f)
  {
  }

  lemma RestoredNames(checkpoints: map<Text, Checkpoint>, r: Record, m: Metadata)
    ensures RestoredPlan(checkpoints, NewPlan(r, m, MAX_SEGMENTS)).id == r.id
  {
  }

  lemma StartedGates(e: Engine, r: Record, m: Metadata)
    ensures Started(e, r, m).paused == e.paused && Started(e, r, m).cancelled == e.cancelled
  {
  }

  lemma {:induction false} ActivationKeeps(c: Client, e: Engine, scans: nat)
    requires Sound(e)
    ensures Sound(ActivateUpTo(c, e, scans))
    ensures Resting(e) ==> Resting(ActivateUpTo(c, e, scans))
    ensures ActivateUpTo(c, e, scans).paused == e.paused && ActivateUpTo(c, e, scans).cancelled == e.cancelled
    decreases scans
  {
    hide Sound, Resting, ActivateOne;
    if |e.active| < MAX_ACTIVE && e.pending != [] && scans > 0 {
      ActivateOneKeeps(c, e);
      ActivationKeeps(c, ActivateOne(c, e), scans - 1);
    }
  }

  lemma NotedKeeps(e: Engine, i: nat, a: Active)
    requires Sound(e) && i < |e.active| && ActiveSound(a) && a.record == e.active[i].record
    ensures Sound(Noted(e, i, a))
  {
    hide ActiveSound, Genuine;
    ActiveUnderway(a);
    SavedIsGenuine(a.plan);
  }

  lemma ActiveUnderway(a: Active)
    requires ActiveSound(a)
    ensures Underway(a.plan) && a.plan.id == a.record.id && a.plan.url == a.record.url && a.record.id != []
  {
  }

  lemma RunOneKeeps(c: Client, e: Engine, i: nat)
    requires Sound(e) && i < |e.active|
    ensures Sound(RunOne(c, e, i))
    ensures RunOne(c, e, i).pending == e.pending && RunOne(c, e, i).paused == e.paused && RunOne(c, e, i).cancelled == e.cancelled
    ensures forall j | 0 <= j < |e.active| && j != i :: RunOne(c, e, i).active[j] == e.active[j]
    ensures RunOne(c, e, i).active[i].record == e.active[i].record
  {
    hide ActiveSound, Genuine, AfterResult, FilesAfter, ResultOf;
    if !Skipped(e, i) {
      var a := e.active[i];
      var k := FirstUnfinished(a.plan.segments);
      if k == |a.plan.segments| {
        FinishKeepsActive(a);
        NotedKeeps(e, i, a.(finished := true));
      } else {
        ResultKeepsActive(a, ResultAt(c, e, i, k));
        SameRecord(a, k, ResultAt(c, e, i, k));
        NotedKeeps(AfterStreaming(c, e, i, k), i, AfterResult(a, k, ResultAt(c, e, i, k)));
      }
    }
  }

  lemma SameRecord(a: Active, k: nat, r: TransferResult)
    requires k < |a.plan.segments|
    ensures AfterResult(a, k, r).record == a.record
  {
  }

  lemma {:induction false} RunKeeps(c: Client, e: Engine, n: nat)
    requires Sound(e) && n <= |e.active|
    ensures Sound(RunUpTo(c, e, n))
    ensures RunUpTo(c, e, n).pending == e.pending && RunUpTo(c, e, n).paused == e.paused && RunUpTo(c, e, n).cancelled == e.cancelled
    ensures forall j | n <= j < |e.active| :: RunUpTo(c, e, n).active[j] == e.active[j]
    ensures forall j | 0 <= j < n :: RunUpTo(c, e, n).active[j].record == e.active[j].record
  {
    hide Sound, RunOne;
    if n > 0 {
      RunKeeps(c, e, n - 1);
      RunOneKeeps(c, RunUpTo(c, e, n - 1), n - 1);
    }
  }

  /** A report is about what is on disk: the scheduler's own lists stay, and checkpoints only go. */
  ghost predicate ListsKept(e: Engine, f: Engine) {
    && f.pending == e.pending && f.active == e.active && f.paused == e.paused && f.cancelled == e.cancelled
    && f.names == e.names && f.calls == e.calls
    && forall id | id in f.checkpoints :: id in e.checkpoints && f.checkpoints[id] == e.checkpoints[id]
  }

  lemma FinishKeepsLists(e: Engine, id: Text, ending: Ending)
    ensures ListsKept(e, Finish(e, id, ending)) && Finish(e, id, ending).log == e.log
    ensures Finish(e, id, ending).completed == e.completed && Finish(e, id, ending).failed == e.failed
  {
    hide AfterCommit;
    CommitKeepsLists(e, id, ending.commit);
  }

  lemma CommitKeepsLists(e: Engine, id: Text, commit: Commit)
    ensures var f := AfterCommit(e, id, commit);
      && f == e.(files := f.files, over := f.over, bases := f.bases, taken := f.taken)
  {
    hide Off, Rebased, StagedAt, StagedPath;
  }

  lemma ReportKeepsLists(e: Engine, a: Active, ending: Ending)
    ensures ListsKept(e, ReportOne(e, a, ending))
  {
    hide Finish, CompleteNow;
    FinishKeepsLists(NotedComplete(e, a), a.record.id, ending);
  }

  lemma {:induction false} ReportFrame(e: Engine, endings: seq<Ending>, n: nat)
    requires n <= |e.active|
    ensures ListsKept(e, ReportUpTo(e, endings, n))
  {
    hide ReportOne;
    if n > 0 {
      ReportFrame(e, endings, n - 1);
      ReportKeepsLists(ReportUpTo(e, endings, n - 1), e.active[n - 1], EndingAt(endings, n - 1));
    }
  }

  /** What is still active after a pump: a part of what was, in the same order. */
  lemma {:induction false} SettledAre(cancelled: set<Text>, actives: seq<Active>)
    ensures |Settled(cancelled, actives)| <= |actives|
    ensures forall a :: a in Settled(cancelled, actives) <==> a in actives && !a.finished && !a.failed && a.record.id !in cancelled
    ensures (forall i, j | 0 <= i < j < |actives| :: actives[i].record.id != actives[j].record.id) ==>
              forall i, j | 0 <= i < j < |Settled(cancelled, actives)| :: Settled(cancelled, actives)[i].record.id != Settled(cancelled, actives)[j].record.id
  {
    if actives != [] {
      SettledAre(cancelled, actives[..|actives| - 1]);
    }
  }

  lemma FewerActives(e: Engine, fewer: seq<Active>)
    requires Sound(e) && |fewer| <= |e.active|
    requires forall a | a in fewer :: a in e.active
    requires forall i, j | 0 <= i < j < |fewer| :: fewer[i].record.id != fewer[j].record.id
    ensures Sound(e.(active := fewer))
  {
    hide ActiveSound, Genuine;
    forall i | 0 <= i < |fewer|
      ensures exists k | 0 <= k < |e.active| :: e.active[k] == fewer[i]
    {
      assert fewer[i] in fewer;
    }
  }

  lemma ClosedKeeps(e: Engine, endings: seq<Ending>)
    requires Sound(e)
    ensures Sound(Closed(e, endings)) && Resting(Closed(e, endings))
  {
    hide Sound, Settled, ReportUpTo;
    ReportFrame(e, endings, |e.active|);
    SoundFrame(e, ReportUpTo(e, endings, |e.active|));
    SweptKeeps(ReportUpTo(e, endings, |e.active|));
  }

  lemma SweptKeeps(e: Engine)
    requires Sound(e)
    ensures Sound(Swept(e)) && Resting(Swept(e))
  {
    hide ActiveSound, Genuine, Settled;
    SettledAre(e.cancelled, e.active);
    FewerActives(e, Settled(e.cancelled, e.active));
    forall i | 0 <= i < |Settled(e.cancelled, e.active)|
      ensures !Settled(e.cancelled, e.active)[i].finished && !Settled(e.cancelled, e.active)[i].failed
    {
      assert Settled(e.cancelled, e.active)[i] in Settled(e.cancelled, e.active);
    }
  }

  /** A pump as far as its transfers. */
  lemma WorkKeeps(c: Client, e: Engine)
    requires Sound(e)
    ensures Sound(Worked(c, e)) && Worked(c, e).paused == e.paused && Worked(c, e).cancelled == e.cancelled
  {
    hide Sound, ActivateUpTo, RunUpTo;
    var activated := ActivateUpTo(c, e, |e.pending|);
    ActivationKeeps(c, e, |e.pending|);
    RunKeeps(c, activated, |activated.active|);
  }

  lemma PumpKeeps(c: Client, e: Engine, endings: seq<Ending>)
    requires Sound(e)
    ensures Sound(AfterPump(c, e, endings)) && Resting(AfterPump(c, e, endings))
  {
    hide Sound, Resting, Closed, Worked;
    WorkKeeps(c, e);
    ClosedKeeps(Worked(c, e), endings);
  }

  lemma ReportsDoneKeep(c: Client, e: Engine, endings: seq<Ending>)
    requires Sound(e)
    ensures Sound(ReportsDone(c, e, endings))
  {
    hide Sound, ReportUpTo, Worked;
    WorkKeeps(c, e);
    var worked := Worked(c, e);
    ReportFrame(worked, endings, Min(|endings|, |worked.active|));
    SoundFrame(worked, ReportsDone(c, e, endings));
  }

  lemma {:induction false} WithoutRecordIs(rs: seq<Record>, id: Text)
    ensures forall r :: r in WithoutRecord(rs, id) <==> r in rs && r.id != id
    ensures (forall i, j | 0 <= i < j < |rs| :: rs[i].id != rs[j].id) ==>
              forall i, j | 0 <= i < j < |WithoutRecord(rs, id)| :: WithoutRecord(rs, id)[i].id != WithoutRecord(rs, id)[j].id
  {
    if rs != [] {
      WithoutRecordIs(rs[..|rs| - 1], id);
    }
  }

  lemma {:induction false} WithoutActiveIs(actives: seq<Active>, id: Text)
    ensures |WithoutActive(actives, id)| <= |actives|
    ensures forall a :: a in WithoutActive(actives, id) <==> a in actives && a.record.id != id
    ensures (forall i, j | 0 <= i < j < |actives| :: actives[i].record.id != actives[j].record.id) ==>
              forall i, j | 0 <= i < j < |WithoutActive(actives, id)| ::
                WithoutActive(actives, id)[i].record.id != WithoutActive(actives, id)[j].record.id
  {
    if actives != [] {
      WithoutActiveIs(actives[..|actives| - 1], id);
    }
  }

  lemma FewerPending(e: Engine, fewer: seq<Record>)
    requires Sound(e)
    requires forall r | r in fewer :: r in e.pending
    requires forall i, j | 0 <= i < j < |fewer| :: fewer[i].id != fewer[j].id
    ensures Sound(e.(pending := fewer))
  {
    hide ActiveSound, Genuine;
    forall i | 0 <= i < |fewer|
      ensures exists k | 0 <= k < |e.pending| :: e.pending[k] == fewer[i]
    {
      assert fewer[i] in fewer;
    }
  }

  lemma CancelKeeps(e: Engine, id: Text)
    requires Sound(e) && Resting(e)
    ensures Sound(AfterCancel(e, id)) && Resting(AfterCancel(e, id))
    ensures !IsPending(AfterCancel(e, id), id) && !IsActive(AfterCancel(e, id), id)
  {
    hide ActiveSound, Genuine, WithoutRecord, WithoutActive, DistinctIds;
    var pending, active := WithoutRecord(e.pending, id), WithoutActive(e.active, id);
    WithoutRecordIs(e.pending, id);
    WithoutActiveIs(e.active, id);
    SoundIds(e);
    FewerPending(e, pending);
    FewerActives(e.(pending := pending), active);
    assert Sound(e.(pending := pending, active := active));
    SoundFrame(e.(pending := pending, active := active), AfterCancel(e, id));
    forall i | 0 <= i < |active|
      ensures !active[i].finished && !active[i].failed && active[i].record.id != id
    {
      assert active[i] in active;
    }
    forall i | 0 <= i < |pending|
      ensures pending[i].id != id
    {
      assert pending[i] in pending;
    }
  }

  lemma SoundIds(e: Engine)
    requires Sound(e)
    ensures forall i, j | 0 <= i < j < |e.pending| :: e.pending[i].id != e.pending[j].id
    ensures forall i, j | 0 <= i < j < |e.active| :: e.active[i].record.id != e.active[j].record.id
  {
    hide ActiveSound, Genuine;
  }

  lemma OneSound(e: Engine, i: nat)
    requires Sound(e) && i < |e.active|
    ensures ActiveSound(e.active[i])
  {
    hide ActiveSound, Genuine, DistinctIds;
  }

  /** The invariant is about the queue, the active list and the checkpoints only. */
  lemma SoundFrame(e: Engine, f: Engine)
    requires Sound(e) && f.pending == e.pending && f.active == e.active
    requires forall id | id in f.checkpoints :: id in e.checkpoints && f.checkpoints[id] == e.checkpoints[id]
    ensures Sound(f)
  {
    hide ActiveSound, Genuine;
  }

  lemma QueueKeeps(e: Engine, r: Record)
    requires Sound(e)
    ensures Sound(AfterQueue(e, r))
  {
    hide ActiveSound, Genuine;
  }

  lemma InterruptedKeeps(c: Client, e: Engine, scans: nat, runs: nat, torn: bool)
    requires Sound(e)
    ensures forall id | id in Interrupted(c, e, scans, runs, torn).checkpoints :: Genuine(Interrupted(c, e, scans, runs, torn).checkpoints[id])
  {
    hide ActiveSound, Genuine, ActivateUpTo, RunUpTo, FilesAfter, Skipped;
    ActivationKeeps(c, e, Min(scans, |e.pending|));
    var activated := ActivateUpTo(c, e, Min(scans, |e.pending|));
    RunKeeps(c, activated, Min(runs, |activated.active|));
  }

  lemma StepKeeps(c: Client, e: Engine, call: Call)
    requires Sound(e) && Resting(e)
    ensures Sound(Step(c, e, call)) && Resting(Step(c, e, call))
  {
    hide Sound, AfterCancel, AfterPump, Interrupted, ReportsDone;
    match call
    case Enqueue(r) =>
      SoundFrame(e, HasFile(e, r));
      QueueKeeps(HasFile(e, r), r);
    case Prepare(r) => SoundFrame(e, HasFile(e, r));
    case Pause(id) => SoundFrame(e, AfterPause(e, id));
    case Resume(id) => SoundFrame(e, AfterResume(e, id));
    case Cancel(id, drops) =>
      CancelKeeps(e, id);
      SoundFrame(AfterCancel(e, id), Withdrawn(e, id, drops));
    case Restart(r) =>
      CancelKeeps(e, r.id);
      var emptied := HasFile(Withdrawn(e, r.id, Some(r.name)), r);
      SoundFrame(AfterCancel(e, r.id), emptied);
      QueueKeeps(emptied, r);
    case Pump(endings) => PumpKeeps(c, e, endings);
    case Crash(scans, runs, torn) =>
      InterruptedKeeps(c, e, scans, runs, torn);
      NothingListed(Step(c, e, call));
    case CrashInReports(endings) =>
      ReportsDoneKeep(c, e, endings);
      CheckpointsGenuine(ReportsDone(c, e, endings));
      NothingListed(Step(c, e, call));
  }

  lemma CheckpointsGenuine(e: Engine)
    requires Sound(e)
    ensures forall id | id in e.checkpoints :: Genuine(e.checkpoints[id])
  {
    hide ActiveSound, DistinctIds, Genuine;
  }

  lemma NothingListed(e: Engine)
    requires e.pending == [] && e.active == [] && forall id | id in e.checkpoints :: Genuine(e.checkpoints[id])
    ensures Sound(e)
  {
    hide Genuine;
  }

  /** Over every run, whatever is answered: at most five downloads are active, no id is listed twice,
      and every active download is soundly underway within its budget of transfers. */
  lemma {:induction false} RunIsSound(c: Client, calls: seq<Call>)
    ensures Sound(Run(c, calls)) && Resting(Run(c, calls))
  {
    hide Step, Sound;
    if calls == [] {
      NothingListed(Empty());
    } else {
      RunIsSound(c, calls[..|calls| - 1]);
      StepKeeps(c, Run(c, calls[..|calls| - 1]), calls[|calls| - 1]);
    }
  }
}
