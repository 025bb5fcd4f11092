/** The transfer scheduler: a queue of downloads, at most five of them active, one transfer each per pump. */
module TransferScheduler {
  import opened Bytes
  import opened Wrappers
  import opened DownloadPlan
  import opened DownloadCheckpoint
  import opened StagedPaths
  import opened HttpTransport

  const MAX_ACTIVE := 5

  /** `spent` counts the transfers since activation, which `since` finds in the log; nothing depends on either. */
  datatype Active = Active(record: Record, plan: Plan, finished: bool, failed: bool, spent: nat, since: nat)

  /** What a running download counts on: the plan and the staged file it had when it last came by its file, which was at
      its activation, or when a commit put another file in that one's place, or none. */
  datatype Basis = Basis(plan: Plan, found: seq<Cell>)

  /** What the scheduler asks of its transport and tells its callbacks, in order. An activation is noted with the
      plan it starts from, the staged file it finds, and whether that is the file its progress was saved over.
      A completion comes with the staged file as it is at that moment, the place of its activation, and its basis. */
  datatype Event =
    | Described(record: Record, answer: Option<Metadata>)
    | Activated(plan: Plan, found: seq<Cell>, kept: bool)
    | Transferred(request: TransportRequest)
    | Progress(plan: Plan)
    | Complete(plan: Plan, staged: seq<Cell>, since: nat, basis: Basis)
    | Failure(id: Text)

  /** The scheduler with the files of the download directory, the names of the downloads opened since the program
      started, the number of client calls so far, and the saved checkpoints. Nothing depends on the rest: the name under
      which each checkpoint was saved, while its file is still there; what the running downloads count on; the downloads
      that had their file taken by a commit while they ran; and the log. */
  datatype Engine = Engine(
    pending: seq<Record>, active: seq<Active>, paused: set<Text>, cancelled: set<Text>,
    completed: seq<Text>, failed: seq<Text>,
    files: map<Path, seq<Cell>>, names: map<Text, Text>, calls: nat, checkpoints: map<Text, Checkpoint>,
    over: map<Text, Text>, bases: map<Text, Basis>, taken: set<Text>, log: seq<Event>)

  // Files.

  /** The path a download ends up at. */
  function NameOf(e: Engine, id: Text): Path {
    if id in e.names then e.names[id] else []
  }

  function HomeOf(e: Engine, id: Text): Path {
    StagedPath(NameOf(e, id), id)
  }

  function FileAt(e: Engine, path: Path): seq<Cell> {
    if path in e.files then e.files[path] else []
  }

  function StagedFile(e: Engine, id: Text): seq<Cell> {
    FileAt(e, HomeOf(e, id))
  }

  function Prepared(e: Engine, id: Text, name: Text): Engine {
    var path := StagedPath(name, id);
    e.(names := e.names[id := name], files := if path in e.files then e.files else e.files[path := []])
  }

  /** The checkpoints that are over a file at another path. */
  function Off(over: map<Text, Text>, path: Path): map<Text, Text> {
    map id | id in over && StagedPath(over[id], id) != path :: over[id]
  }

  /** A file removed: no checkpoint is over it any more. */
  function Dropped(e: Engine, path: Path): Engine {
    e.(files := e.files - {path}, over := Off(e.over, path))
  }

  // What a completion callback does to the disk.

  /** What became of a commit: nothing was done, what lay at the final path was removed and no more, or the staged file
      was moved there. */
  datatype Commit = NotMade | Cleared | Renamed

  /** And whether the checkpoint was erased. */
  datatype Ending = Ending(commit: Commit, forgets: bool)

  /** The running downloads that are staged at a path. */
  function StagedAt(e: Engine, actives: seq<Active>, path: Path): set<Text> {
    set i | 0 <= i < |actives| && HomeOf(e, actives[i].record.id) == path :: actives[i].record.id
  }

  function Rebased(e: Engine, actives: seq<Active>, path: Path, file: seq<Cell>): map<Text, Basis> {
    if actives == [] then e.bases
    else
      var rest, a := Rebased(e, actives[..|actives| - 1], path, file), actives[|actives| - 1];
      if HomeOf(e, a.record.id) == path then rest[a.record.id := Basis(a.plan, file)] else rest
  }

  /** A commit puts a file at a path, or clears the path: a download that is staged there finds its own file gone. */
  function Put(e: Engine, path: Path, file: Option<seq<Cell>>): Engine {
    e.(files := if file.Some? then e.files[path := file.value] else e.files - {path}, over := Off(e.over, path),
       bases := Rebased(e, e.active, path, if file.Some? then file.value else []),
       taken := e.taken + StagedAt(e, e.active, path))
  }

  /** The final path is cleared first, and then the staged file is moved there. */
  function AfterCommit(e: Engine, id: Text, commit: Commit): Engine {
    if !Writable(e.files, e.names, id) then e
    else
      match commit
      case NotMade => e
      case Cleared => if NameOf(e, id) in e.files then Put(e, NameOf(e, id), None) else e
      case Renamed => Put(Dropped(e, HomeOf(e, id)), NameOf(e, id), Some(StagedFile(e, id)))
  }

  function Finish(e: Engine, id: Text, ending: Ending): Engine {
    var committed := AfterCommit(e, id, ending.commit);
    if ending.forgets then Forgot(committed, id) else committed
  }

  function Forgot(e: Engine, id: Text): Engine {
    e.(checkpoints := e.checkpoints - {id}, over := e.over - {id})
  }

  // What each call does.

  predicate IsPending(e: Engine, id: Text) {
    exists i | 0 <= i < |e.pending| :: e.pending[i].id == id
  }

  predicate IsActive(e: Engine, id: Text) {
    exists i | 0 <= i < |e.active| :: e.active[i].record.id == id
  }

  predicate CanQueue(e: Engine, r: Record) {
    r.id != [] && r.url != [] && !IsPending(e, r.id) && !IsActive(e, r.id)
  }

  function AfterQueue(e: Engine, r: Record): Engine {
    if CanQueue(e, r) then e.(pending := e.pending + [r]) else e
  }

  function AfterPause(e: Engine, id: Text): Engine {
    if IsPending(e, id) || IsActive(e, id) then e.(paused := e.paused + {id}) else e
  }

  function AfterResume(e: Engine, id: Text): Engine {
    e.(paused := e.paused - {id})
  }

  function WithoutRecord(rs: seq<Record>, id: Text): seq<Record> {
    if rs == [] then []
    else WithoutRecord(rs[..|rs| - 1], id) + if rs[|rs| - 1].id == id then [] else [rs[|rs| - 1]]
  }

  function WithoutActive(actives: seq<Active>, id: Text): seq<Active> {
    if actives == [] then []
    else WithoutActive(actives[..|actives| - 1], id)
         + if actives[|actives| - 1].record.id == id then [] else [actives[|actives| - 1]]
  }

  function AfterCancel(e: Engine, id: Text): Engine {
    e.(pending := WithoutRecord(e.pending, id), active := WithoutActive(e.active, id),
       paused := e.paused - {id}, cancelled := e.cancelled + {id})
  }

  /** The progress callback: a checkpoint is saved under the plan's id. */
  function Saved(checkpoints: map<Text, Checkpoint>, p: Plan): map<Text, Checkpoint> {
    if p.id == [] then checkpoints else checkpoints[p.id := CheckpointOf(p)]
  }

  /** The restore callback: the saved checkpoint, if there is one, is applied to the new plan. */
  function RestoredPlan(checkpoints: map<Text, Checkpoint>, p: Plan): Plan {
    if p.id in checkpoints then Applied(p, checkpoints[p.id]).0 else p
  }

  /** Whether an activation finds the file that the progress it restores was saved over. */
  predicate Kept(e: Engine, blank: Plan) {
    RestoredPlan(e.checkpoints, blank) == blank || (blank.id in e.over && e.over[blank.id] == NameOf(e, blank.id))
  }

  /** The progress callback saves a checkpoint over the staged file as it is. */
  function Checkpointed(e: Engine, p: Plan): Engine {
    e.(checkpoints := Saved(e.checkpoints, p), over := if p.id == [] then e.over else e.over[p.id := NameOf(e, p.id)],
       log := e.log + [Progress(p)])
  }

  function Started(e: Engine, r: Record, m: Metadata): Engine {
    var blank := NewPlan(r, m, MAX_SEGMENTS);
    var plan := RestoredPlan(e.checkpoints, blank);
    Checkpointed(e.(active := e.active + [Active(r, plan, false, false, 0, |e.log|)],
                    bases := e.bases[r.id := Basis(plan, StagedFile(e, r.id))],
                    log := e.log + [Activated(plan, StagedFile(e, r.id), Kept(e, blank))]), plan)
  }

  function FailedId(e: Engine, id: Text): Engine {
    e.(failed := e.failed + [id], log := e.log + [Failure(id)])
  }

  /** One turn of the activation loop: the first pending record is dropped, put back, failed or started. */
  function ActivateOne(c: Client, e: Engine): Engine
    requires e.pending != []
  {
    var r := e.pending[0];
    var rest := e.(pending := e.pending[1..]);
    if r.id in e.cancelled then rest
    else if r.id in e.paused then rest.(pending := rest.pending + [r])
    else
      var m := Inspected(c.inspect(e.calls, r.url, r.referrer));
      var asked := rest.(calls := e.calls + 1, log := e.log + [Described(r, m)]);
      if m.None? || NewPlan(r, m.value, MAX_SEGMENTS).segments == [] then FailedId(asked, r.id)
      else Started(asked, r, m.value)
  }

  function ActivateUpTo(c: Client, e: Engine, scans: nat): Engine
    decreases scans
  {
    if |e.active| >= MAX_ACTIVE || e.pending == [] || scans == 0 then e
    else ActivateUpTo(c, ActivateOne(c, e), scans - 1)
  }

  function FirstUnfinished(segments: seq<Segment>): (i: nat)
    ensures i <= |segments|
    ensures i < |segments| ==> !segments[i].finished
    ensures forall j | 0 <= j < i :: segments[j].finished
  {
    if segments == [] || !segments[0].finished then 0 else 1 + FirstUnfinished(segments[1..])
  }

  function RequestOf(a: Active, k: nat): TransportRequest
    requires k < |a.plan.segments|
  {
    var s := a.plan.segments[k];
    TransportRequest(a.record.id, a.record.url, a.record.referrer, s.begin, s.end, s.done, a.plan.metadata.etag, a.plan.metadata.lastModified)
  }

  function AllFinished(segments: seq<Segment>): bool {
    forall s | s in segments :: s.finished
  }

  /** An active download after a transfer of its segment k. */
  function AfterResult(a: Active, k: nat, r: TransferResult): Active
    requires k < |a.plan.segments|
  {
    var s := a.plan.segments[k];
    var plan := WithSegment(a.plan, k, AfterTransfer(s, r));
    a.(plan := plan, spent := a.spent + 1,
       finished := if Fills(s, r) then AllFinished(plan.segments) else a.finished,
       failed := a.failed || (!Fills(s, r) && !Retries(s, r)))
  }

  predicate Skipped(e: Engine, i: nat)
    requires i < |e.active|
  {
    var a := e.active[i];
    a.finished || a.failed || a.record.id in e.paused || a.record.id in e.cancelled
  }

  function Noted(e: Engine, i: nat, a: Active): Engine
    requires i < |e.active|
  {
    Checkpointed(e.(active := e.active[i := a]), a.plan)
  }

  /** The state in the middle of a run, when the transfer is done and nothing is saved yet. */
  function AfterStreaming(c: Client, e: Engine, i: nat, k: nat): Engine
    requires i < |e.active| && k < |e.active[i].plan.segments|
  {
    var request := RequestOf(e.active[i], k);
    e.(files := FilesAfter(e.files, e.names, request, c.stream(e.calls, request)), calls := e.calls + 1,
       log := e.log + [Transferred(request)])
  }

  function ResultAt(c: Client, e: Engine, i: nat, k: nat): TransferResult
    requires i < |e.active| && k < |e.active[i].plan.segments|
  {
    ResultOf(Writable(e.files, e.names, e.active[i].record.id), c.stream(e.calls, RequestOf(e.active[i], k)))
  }

  /** One turn of the run loop. */
  function RunOne(c: Client, e: Engine, i: nat): (after: Engine)
    requires i < |e.active|
    ensures |after.active| == |e.active|
  {
    if Skipped(e, i) then e
    else
      var a := e.active[i];
      var k := FirstUnfinished(a.plan.segments);
      if k == |a.plan.segments| then Noted(e, i, a.(finished := true))
      else Noted(AfterStreaming(c, e, i, k), i, AfterResult(a, k, ResultAt(c, e, i, k)))
  }

  /** Running one segment, before the progress callback. */
  function AfterRun(c: Client, e: Engine, i: nat): (after: Engine)
    requires i < |e.active|
    ensures |after.active| == |e.active|
  {
    var a := e.active[i];
    var k := FirstUnfinished(a.plan.segments);
    if k == |a.plan.segments| then e.(active := e.active[i := a.(finished := true)])
    else
      var streamed := AfterStreaming(c, e, i, k);
      streamed.(active := e.active[i := AfterResult(a, k, ResultAt(c, e, i, k))])
  }

  function RunUpTo(c: Client, e: Engine, n: nat): (after: Engine)
    requires n <= |e.active|
    ensures |after.active| == |e.active|
  {
    if n == 0 then e else RunOne(c, RunUpTo(c, e, n - 1), n - 1)
  }

  function BasisOf(e: Engine, a: Active): Basis {
    if a.record.id in e.bases then e.bases[a.record.id] else Basis(a.plan, StagedFile(e, a.record.id))
  }

  /** What a completion callback finds. */
  function CompleteNow(e: Engine, a: Active): Event {
    Complete(a.plan, StagedFile(e, a.record.id), a.since, BasisOf(e, a))
  }

  /** A completion noted, before its callback. */
  function NotedComplete(e: Engine, a: Active): Engine {
    e.(completed := e.completed + [a.record.id], log := e.log + [CompleteNow(e, a)])
  }

  /** One turn of the report loop, with what the completion callback does. */
  function ReportOne(e: Engine, a: Active, ending: Ending): (after: Engine)
    ensures after.active == e.active && after.cancelled == e.cancelled
  {
    var first := if a.finished then Finish(NotedComplete(e, a), a.record.id, ending) else e;
    if a.failed then FailedId(first, a.record.id) else first
  }

  function EndingAt(endings: seq<Ending>, i: nat): Ending {
    if i < |endings| then endings[i] else Ending(NotMade, false)
  }

  function ReportUpTo(e: Engine, endings: seq<Ending>, n: nat): (after: Engine)
    requires n <= |e.active|
    ensures after.active == e.active && after.cancelled == e.cancelled
  {
    if n == 0 then e else ReportOne(ReportUpTo(e, endings, n - 1), e.active[n - 1], EndingAt(endings, n - 1))
  }

  function Settled(cancelled: set<Text>, actives: seq<Active>): seq<Active> {
    if actives == [] then []
    else
      var a := actives[|actives| - 1];
      Settled(cancelled, actives[..|actives| - 1])
      + if a.finished || a.failed || a.record.id in cancelled then [] else [a]
  }

  /** The removal that ends a pump. */
  function Swept(e: Engine): Engine {
    e.(active := Settled(e.cancelled, e.active))
  }

  /** The report loop and the removal. */
  function Closed(e: Engine, endings: seq<Ending>): Engine {
    Swept(ReportUpTo(e, endings, |e.active|))
  }

  /** The state of a pump when its transfers are done and its reports begin. */
  function Worked(c: Client, e: Engine): Engine {
    var activated := ActivateUpTo(c, e, |e.pending|);
    RunUpTo(c, activated, |activated.active|)
  }

  /** A whole pump, with what the callbacks of its completions do to the disk. */
  function AfterPump(c: Client, e: Engine, endings: seq<Ending>): Engine {
    Closed(Worked(c, e), endings)
  }

  class DownloadTransferScheduler {
    const transport: HttpDownloadTransport
    var pending: seq<Record>
    var active: seq<Active>
    var paused: set<Text>
    var cancelled: set<Text>
    var completed: seq<Text>
    var failed: seq<Text>
    var checkpoints: map<Text, Checkpoint>
    var log: seq<Event>
    var over: map<Text, Text>
    var bases: map<Text, Basis>
    var taken: set<Text>

    constructor (t: HttpDownloadTransport, saved: map<Text, Checkpoint>)
      ensures transport == t
      ensures State() == Engine([], [], {}, {}, [], [], t.files, t.names, t.calls, saved, map[], map[], {}, [])
    {
      transport := t;
      pending, active, paused, cancelled, completed, failed := [], [], {}, {}, [], [];
      checkpoints, log, over, bases, taken := saved, [], map[], map[], {};
    }

    function State(): Engine
      reads this, transport
    {
      Engine(pending, active, paused, cancelled, completed, failed, transport.files, transport.names, transport.calls, checkpoints, over, bases, taken, log)
    }

    method Contains(id: Text) returns (found: bool)
      ensures found == (IsPending(State(), id) || IsActive(State(), id))
    {
      found := (exists i | 0 <= i < |pending| :: pending[i].id == id) || (exists i | 0 <= i < |active| :: active[i].record.id == id);
    }

    method Queue(r: Record) returns (ok: bool)
      modifies this
      ensures ok == CanQueue(old(State()), r) && State() == AfterQueue(old(State()), r)
    {
      if r.id == [] || r.url == [] {
        return false;
      }
      var found := Contains(r.id);
      if found {
        return false;
      }
      pending := pending + [r];
      return true;
    }

    method Pause(id: Text) returns (ok: bool)
      modifies this
      ensures ok == (IsPending(old(State()), id) || IsActive(old(State()), id)) && State() == AfterPause(old(State()), id)
    {
      ok := Contains(id);
      if ok {
        paused := paused + {id};
      }
    }

    method Resume(id: Text) returns (ok: bool)
      modifies this
      ensures ok == (id in old(paused)) && State() == AfterResume(old(State()), id)
    {
      ok := id in paused;
      paused := paused - {id};
    }

    method Cancel(id: Text) returns (removed: bool)
      modifies this
      ensures removed == (IsPending(old(State()), id) || IsActive(old(State()), id)) && State() == AfterCancel(old(State()), id)
    {
      hide WithoutRecord, WithoutActive;
      var queued := RemovePending(id);
      var running := RemoveActive(id);
      removed := queued || running;
      paused := paused - {id};
      cancelled := cancelled + {id};
    }

    method RemovePending(id: Text) returns (removed: bool)
      modifies this`pending
      ensures removed == IsPending(old(State()), id) && pending == WithoutRecord(old(pending), id)
    {
      removed := false;
      var kept: seq<Record> := [];
      var i := 0;
      while i < |pending|
        invariant 0 <= i <= |pending|
        invariant kept == WithoutRecord(pending[..i], id)
        invariant removed == exists j | 0 <= j < i :: pending[j].id == id
      {
        assert pending[..i + 1][..i] == pending[..i];
        if pending[i].id == id {
          removed := true;
        } else {
          kept := kept + [pending[i]];
        }
        i := i + 1;
      }
      assert pending[..i] == pending;
      pending := kept;
    }

    method RemoveActive(id: Text) returns (removed: bool)
      modifies this`active
      ensures removed == IsActive(old(State()), id) && active == WithoutActive(old(active), id)
    {
      removed := false;
      var kept: seq<Active> := [];
      var i := 0;
      while i < |active|
        invariant 0 <= i <= |active|
        invariant kept == WithoutActive(active[..i], id)
        invariant removed == exists j | 0 <= j < i :: active[j].record.id == id
      {
        assert active[..i + 1][..i] == active[..i];
        if active[i].record.id == id {
          removed := true;
        } else {
          kept := kept + [active[i]];
        }
        i := i + 1;
      }
      assert active[..i] == active;
      active := kept;
    }

    method FailRecord(id: Text)
      modifies this
      ensures State() == FailedId(old(State()), id)
    {
      failed := failed + [id];
      log := log + [Failure(id)];
    }

    method SaveProgress(p: Plan)
      modifies this
      ensures State() == Checkpointed(old(State()), p)
    {
      if p.id != [] {
        var c := MakeCheckpoint(p);
        checkpoints := checkpoints[p.id := c];
        over := over[p.id := NameOf(State(), p.id)];
      }
      log := log + [Progress(p)];
    }

    method Forget(id: Text)
      modifies this`checkpoints, this`over
      ensures State() == Forgot(old(State()), id)
    {
      checkpoints, over := checkpoints - {id}, over - {id};
    }

    method Prepare(id: Text, name: Text)
      modifies transport
      ensures State() == Prepared(old(State()), id, name)
    {
      transport.Prepare(id, name);
    }

    method Drop(path: Path)
      modifies this`over, transport
      ensures State() == Dropped(old(State()), path)
    {
      transport.Discard(path);
      over := Off(over, path);
    }

    /** What is at a path is replaced by another file, or goes. */
    method PutAt(path: Path, file: Option<seq<Cell>>)
      modifies this`over, this`bases, this`taken, transport
      ensures State() == Put(old(State()), path, file)
    {
      hide Off, Rebased, StagedAt;
      var e := State();
      taken, over := taken + StagedAt(e, active, path), Off(over, path);
      bases := Rebased(e, active, path, if file.Some? then file.value else []);
      if file.Some? {
        transport.Store(path, file.value);
      } else {
        transport.Discard(path);
      }
    }

    method CommitFile(id: Text, commit: Commit)
      modifies this`over, this`bases, this`taken, transport
      ensures State() == AfterCommit(old(State()), id, commit)
    {
      hide Put, Dropped;
      if id !in transport.names || HomeOf(State(), id) !in transport.files {
        return;
      }
      var name := transport.names[id];
      match commit
      case NotMade =>
      case Cleared =>
        if name in transport.files {
          PutAt(name, None);
        }
      case Renamed =>
        var file := StagedFile(State(), id);
        Drop(HomeOf(State(), id));
        PutAt(name, Some(file));
    }

    method RestorePlan(p: Plan) returns (plan: Plan)
      ensures plan == RestoredPlan(checkpoints, p)
    {
      plan := p;
      if p.id in checkpoints {
        var inProgress := new PlanInProgress(p);
        var ok := inProgress.ApplyCheckpoint(checkpoints[p.id]);
        plan := inProgress.plan;
      }
    }

    /** The bookkeeping of one transfer: the credit, the running total, and what becomes of the download. */
    method Account(before: Active, k: nat, r: TransferResult) returns (a: Active)
      requires k < |before.plan.segments|
      ensures a == AfterResult(before, k, r)
    {
      hide Credited, TotalDone;
      a := before;
      var s := a.plan.segments[k];
      a := a.(plan := a.plan.(segments := a.plan.segments[k := s.(done := Credited(s, r))]), spent := a.spent + 1);
      var done := SumDone(a.plan.segments);
      a := a.(plan := a.plan.(done := done));
      if r.completed || a.plan.segments[k].done >= Size(s) {
        a := a.(plan := a.plan.(segments := a.plan.segments[k := s.(done := Size(s), finished := true)]));
        done := SumDone(a.plan.segments);
        a := a.(plan := a.plan.(done := done));
        a := a.(finished := forall x | x in a.plan.segments :: x.finished);
      } else if r.retryable && s.retries < MAX_RETRIES {
        ghost var credited := a.plan.segments;
        a := a.(plan := a.plan.(segments := a.plan.segments[k := a.plan.segments[k].(retries := s.retries + 1)]));
        SameDone(credited, a.plan.segments);
      } else {
        a := a.(failed := true);
      }
      assert a.plan.segments == before.plan.segments[k := AfterTransfer(s, r)];
      assert a.plan == WithSegment(before.plan, k, AfterTransfer(s, r));
    }

    method ActivateNext()
      requires pending != []
      modifies this, transport`calls
      ensures State() == ActivateOne(transport.client, old(State()))
    {
      hide NewPlan, Inspected, FailedId, Started;
      var r := pending[0];
      pending := pending[1..];
      if r.id in cancelled {
        return;
      }
      if r.id in paused {
        pending := pending + [r];
        return;
      }
      var m := transport.Inspect(r.url, r.referrer);
      log := log + [Described(r, m)];
      if m.None? {
        FailRecord(r.id);
        return;
      }
      var plan := MakePlan(r, m.value, MAX_SEGMENTS);
      if plan.segments == [] {
        FailRecord(r.id);
        return;
      }
      Start(r, m.value, plan);
    }

    /** A new plan takes up its saved progress and becomes active. */
    method Start(r: Record, ghost m: Metadata, blank: Plan)
      requires blank == NewPlan(r, m, MAX_SEGMENTS)
      modifies this
      ensures State() == Started(old(State()), r, m)
    {
      hide RestoredPlan, Saved, NewPlan, StagedFile, Kept, NameOf;
      var plan := RestorePlan(blank);
      var found, kept := StagedFile(State(), r.id), Kept(State(), blank);
      active := active + [Active(r, plan, false, false, 0, |log|)];
      bases := bases[r.id := Basis(plan, found)];
      log := log + [Activated(plan, found, kept)];
      SaveProgress(plan);
    }

    method RunOneSegment(i: nat)
      requires i < |active|
      modifies this, transport
      ensures State() == AfterRun(transport.client, old(State()), i)
    {
      hide ResultOf, FilesAfter, AfterResult;
      var a := active[i];
      var k := 0;
      while k < |a.plan.segments| && a.plan.segments[k].finished
        invariant 0 <= k <= |a.plan.segments|
        invariant forall j | 0 <= j < k :: a.plan.segments[j].finished
      {
        k := k + 1;
      }
      assert FirstUnfinished(a.plan.segments) == k;
      if k == |a.plan.segments| {
        active := active[i := a.(finished := true)];
        return;
      }
      var s := a.plan.segments[k];
      var request := TransportRequest(a.record.id, a.record.url, a.record.referrer, s.begin, s.end, s.done,
                                      a.plan.metadata.etag, a.plan.metadata.lastModified);
      var r := transport.Transfer(request);
      log := log + [Transferred(request)];
      a := Account(a, k, r);
      active := active[i := a];
    }

    method Pump(endings: seq<Ending>)
      modifies this, transport
      ensures State() == AfterPump(transport.client, old(State()), endings)
    {
      hide Worked, ReportUpTo, Settled;
      Work();
      ReportLoop(endings);
      Sweep();
    }

    /** The loops that activate and transfer. */
    method Work()
      modifies this, transport
      ensures State() == Worked(transport.client, old(State()))
    {
      hide ActivateUpTo, RunUpTo;
      ActivationLoop();
      RunLoop();
    }

    method RunLoop()
      modifies this, transport
      ensures State() == RunUpTo(transport.client, old(State()), |old(active)|)
    {
      hide RunOne, AfterRun, Checkpointed;
      ghost var from := State();
      var i := 0;
      while i < |active|
        invariant 0 <= i <= |active| == |from.active|
        invariant State() == RunUpTo(transport.client, from, i)
      {
        if !(active[i].finished || active[i].failed || active[i].record.id in paused || active[i].record.id in cancelled) {
          ghost var before := State();
          RunOneSegment(i);
          SaveProgress(active[i].plan);
          RunNoted(transport.client, before, i);
        } else {
          RunSkips(transport.client, State(), i);
        }
        i := i + 1;
      }
    }

    method ActivationLoop()
      modifies this, transport
      ensures State() == ActivateUpTo(transport.client, old(State()), |old(pending)|)
    {
      hide ActivateOne;
      var scans: nat := |pending|;
      while |active| < MAX_ACTIVE && pending != [] && scans > 0
        invariant ActivateUpTo(transport.client, State(), scans) == ActivateUpTo(transport.client, old(State()), |old(pending)|)
        decreases scans
      {
        scans := scans - 1;
        ActivateNext();
      }
    }

    /** The report loop, where a callback does to the disk what its ending says. */
    method ReportLoop(endings: seq<Ending>)
      modifies this, transport
      ensures State() == ReportUpTo(old(State()), endings, |old(active)|)
    {
      hide ReportOne, EndingAt, Finish;
      var i := 0;
      while i < |active|
        invariant 0 <= i <= |active| && active == old(active)
        invariant State() == ReportUpTo(old(State()), endings, i)
      {
        var a, ending := active[i], EndingAt(endings, i);
        ghost var before := State();
        if a.finished {
          NoteComplete(a);
          CommitFile(a.record.id, ending.commit);
          if ending.forgets {
            Forget(a.record.id);
          }
        }
        if a.failed {
          FailRecord(a.record.id);
        }
        ReportIs(before, State(), a, ending);
        i := i + 1;
      }
    }

    method NoteComplete(a: Active)
      modifies this`completed, this`log
      ensures State() == NotedComplete(old(State()), a)
    {
      log := log + [CompleteNow(State(), a)];
      completed := completed + [a.record.id];
    }

    method Sweep()
      modifies this`active
      ensures State() == Swept(old(State()))
    {
      var kept: seq<Active> := [];
      var i := 0;
      while i < |active|
        invariant 0 <= i <= |active|
        invariant kept == Settled(cancelled, active[..i])
      {
        assert active[..i + 1][..i] == active[..i];
        if !(active[i].finished || active[i].failed || active[i].record.id in cancelled) {
          kept := kept + [active[i]];
        }
        i := i + 1;
      }
      assert active[..i] == active;
      active := kept;
    }
  }

  lemma ReportIs(e: Engine, f: Engine, a: Active, ending: Ending)
    requires var noted := if a.finished then AfterCommit(NotedComplete(e, a), a.record.id, ending.commit) else e;
      var settled := if a.finished && ending.forgets then Forgot(noted, a.record.id) else noted;
      f == if a.failed then FailedId(settled, a.record.id) else settled
    ensures f == ReportOne(e, a, ending)
  {
    hide AfterCommit, Forgot, FailedId, CompleteNow;
  }

  lemma RunSkips(c: Client, e: Engine, i: nat)
    requires i < |e.active| && Skipped(e, i)
    ensures RunOne(c, e, i) == e
  {
  }

  lemma RunNoted(c: Client, e: Engine, i: nat)
    requires i < |e.active| && !Skipped(e, i)
    ensures var after := AfterRun(c, e, i);
      && |after.active| == |e.active|
      && Checkpointed(after, after.active[i].plan) == RunOne(c, e, i)
  {
    hide AfterResult, FilesAfter, ResultOf;
  }
}
