/** The download runtime: the queue and the scheduler together, and the release gate between staged bytes and the user. */
module DownloadRuntime {
  import opened Bytes
  import opened Wrappers
  import opened DownloadPlan
  import opened StagedPaths
  import opened HttpTransport
  import opened DownloadCheckpoint
  import opened TransferScheduler
  import Runs = SchedulerInvariants
  import opened DownloadQueue
  import opened Wardveil
  import Sha256

  /** What the world answers to one verification, arbitrary: whether the staged file can be read, the scanner's
      response and the time, the staged bytes after the scan if they can be read again, and how far the commit gets. */
  datatype Inspection = Inspection(readable: bool, response: ScanResponse, now: int, after: Option<seq<byte>>, commit: Commit)

  type Scanner = (nat, Text, seq<byte>) -> Inspection

  /** A commit to the final path, with the completion that led to it and the evidence it was made on. */
  datatype Release = Release(plan: Plan, since: nat, path: Path, bytes: seq<byte>, request: ScanRequest, inspection: Inspection)

  datatype Runtime = Runtime(
    engine: Engine, items: seq<Item>, waiting: set<Text>, shown: map<Text, State>,
    decisions: map<Text, Decision>, scans: nat, releases: seq<Release>)

  // File names.

  function WithoutSeparators(name: Text): (safe: Text)
    ensures |safe| == |name|
  {
    seq(|name|, i requires 0 <= i < |name| => if name[i] == '/' as int || name[i] == '\\' as int || name[i] == 0 then '_' as int else name[i])
  }

  function SafeName(name: Text): Text {
    var safe := WithoutSeparators(name);
    if safe == Ascii(".") || safe == Ascii("..") then Ascii("_") + safe else safe
  }

  /** Where the path of a URL ends. */
  function PathEnd(url: Text): (end: nat)
    ensures end <= |url|
  {
    if url == [] || url[0] == '?' as int || url[0] == '#' as int then 0 else 1 + PathEnd(url[1..])
  }

  /** Where the last component of a path begins. */
  function LastComponent(path: Text): (begin: nat)
    ensures begin <= |path|
  {
    if path == [] then 0 else if path[|path| - 1] == '/' as int then |path| else LastComponent(path[..|path| - 1])
  }

  function DefaultName(url: Text): Text {
    var path := url[..PathEnd(url)];
    var name := path[LastComponent(path)..];
    if name == [] then Ascii("download.bin") else name
  }

  /** The name a download is saved under. */
  function FileName(request: Request): Text {
    SafeName(if request.suggested.Some? then request.suggested.value else DefaultName(request.url))
  }

  function RecordOf(item: Item): Record {
    Record(item.id, item.request.url, item.request.referrer, FileName(item.request), item.segmentLimit)
  }

  function DigestOf(bytes: seq<byte>): Text {
    Sha256.Hex(Sha256.Digest(bytes))
  }

  function ResourceId(id: Text): Text {
    Ascii("browser:download:") + id
  }

  predicate Future(item: Item, now: int) {
    item.request.scheduledStart.Some? && item.request.scheduledStart.value > now
  }

  // The endings of a verification.

  function Marked(r: Runtime, id: Text, state: State): Runtime {
    r.(items := WithState(r.items, id, state), shown := r.shown[id := state], waiting := r.waiting - {id})
  }

  /** How a verification ends: the state it sets, what it does to the disk, the decision it notes if the scanner was
      asked, and the release if there is one. */
  datatype Verdict = Verdict(state: State, ending: Ending, decision: Option<Decision>, release: Option<Release>)

  function ScanRequestOf(r: Runtime, id: Text, staged: seq<byte>): ScanRequest
    requires HasItem(r.items, id)
  {
    ScanRequest(ResourceId(id), DigestOf(staged), |staged| % U64_LIMIT, r.items[FindItem(r.items, id)].request.privateSession)
  }

  function ChangedDecision(d: Decision): Decision {
    d.(disposition := BlockUnverified, canRelease := false, canOpen := false, quarantine := false, reasons := [ContentChanged])
  }

  /** Held and blocked downloads lose their checkpoint, so they cannot resume by themselves. */
  function Refused(state: State, decision: Option<Decision>): Verdict {
    Verdict(state, Ending(NotMade, true), decision, None)
  }

  /** After an allowing decision: the staged bytes are read again, and moved only if they are the same. */
  function CommitVerdict(p: Plan, since: nat, path: Path, staged: seq<byte>, request: ScanRequest, d: Decision, x: Inspection): Verdict {
    if x.after.None? || DigestOf(x.after.value) != DigestOf(staged) then Refused(Blocked, Some(ChangedDecision(d)))
    else if |x.after.value| != p.metadata.total then Verdict(Failed, Ending(NotMade, false), Some(d), None)
    else if x.commit != Renamed then Verdict(Failed, Ending(x.commit, false), Some(d), None)
    else Verdict(Completed, Ending(Renamed, true), Some(d), Some(Release(p, since, path, x.after.value, request, x)))
  }

  /** The scan, and what its decision leads to. */
  function ScanVerdict(r: Runtime, p: Plan, since: nat, staged: seq<byte>, x: Inspection): Verdict
    requires HasItem(r.items, p.id)
  {
    var request := ScanRequestOf(r, p.id, staged);
    var d := Evaluate(request, x.response, x.now);
    if d.disposition == HoldReview then Refused(Held, Some(d))
    else if !d.canRelease then Refused(Blocked, Some(d))
    else CommitVerdict(p, since, NameOf(r.engine, p.id), staged, request, d, x)
  }

  /** What a completion callback comes to, for a download whose file was opened. */
  function VerdictOf(scanner: Scanner, r: Runtime, p: Plan, since: nat): Verdict {
    var staged := Contents(StagedFile(r.engine, p.id));
    var x := scanner(r.scans, p.id, staged);
    if HomeOf(r.engine, p.id) !in r.engine.files || |staged| != p.metadata.total then Verdict(Failed, Ending(NotMade, false), None, None)
    else if !x.readable || !HasItem(r.items, p.id) then Refused(Blocked, None)
    else ScanVerdict(r, p, since, staged, x)
  }

  function Verifies(r: Runtime, id: Text): Runtime {
    r.(items := WithState(r.items, id, Verifying), shown := r.shown[id := Verifying])
  }

  /** What a verification leaves besides the state: the disk, the decision, the scanner's count, and the release. */
  function Noting(r: Runtime, id: Text, ending: Ending, v: Verdict): Runtime {
    r.(engine := Finish(r.engine, id, ending),
       decisions := if v.decision.Some? then r.decisions[id := v.decision.value] else r.decisions,
       scans := if v.decision.Some? then r.scans + 1 else r.scans,
       releases := if v.release.Some? && ending.commit == Renamed then r.releases + [v.release.value] else r.releases)
  }

  function Concluded(r: Runtime, id: Text, v: Verdict): Runtime {
    Marked(Noting(r, id, v.ending, v), id, v.state)
  }

  /** The completion callback. */
  function Verified(scanner: Scanner, r: Runtime, p: Plan, since: nat): Runtime {
    if p.id !in r.engine.names then Marked(r, p.id, Failed)
    else
      var v := VerdictOf(scanner, Verifies(r, p.id), p, since);
      Concluded(Verifies(r, p.id), p.id, v)
  }

  /** The callbacks during the transfers. */
  function Handled(r: Runtime, ev: Event): Runtime {
    match ev
    case Progress(p) => r.(items := WithState(r.items, p.id, Running), shown := r.shown[p.id := Running])
    case Failure(id) => Marked(r, id, Failed)
    case _ => r
  }

  /** The events of the transfers handled in order. */
  function HandledAll(r: Runtime, events: seq<Event>): Runtime {
    if events == [] then r
    else Handled(HandledAll(r, events[..|events| - 1]), events[|events| - 1])
  }

  /** What the scheduler added to its log: its calls of the runtime, in order. */
  function Told(before: Engine, after: Engine): seq<Event> {
    if |before.log| <= |after.log| then after.log[|before.log|..] else []
  }

  function Due(r: Runtime, now: int): set<Text> {
    set id | id in r.waiting && !(HasItem(r.items, id) && Future(r.items[FindItem(r.items, id)], now))
  }

  /** Scheduled starts whose time has come are let go. */
  function ReleasedDue(r: Runtime, now: int): Runtime {
    LetGoAll(r, Due(r, now))
  }

  function LetGoAll(r: Runtime, due: set<Text>): Runtime {
    r.(waiting := r.waiting - due, engine := r.engine.(paused := r.engine.paused - due),
       shown := r.shown + map id | id in due && id in r.engine.paused :: Queued)
  }

  /** One turn of the report loop, with its callback. */
  function ReportedBack(scanner: Scanner, r: Runtime, a: Active): Runtime {
    var told := if a.finished then Verified(scanner, r.(engine := NotedComplete(r.engine, a)), a.plan, a.since) else r;
    if a.failed then Marked(told.(engine := FailedId(told.engine, a.record.id)), a.record.id, Failed) else told
  }

  /** The report loop over these downloads. */
  function CalledBack(scanner: Scanner, r: Runtime, actives: seq<Active>): Runtime {
    if actives == [] then r
    else ReportedBack(scanner, CalledBack(scanner, r, actives[..|actives| - 1]), actives[|actives| - 1])
  }

  /** A pump as far as its transfers, with the callbacks they make. */
  function AfterWork(client: Client, r: Runtime): Runtime {
    var engine := Worked(client, r.engine);
    HandledAll(r.(engine := engine), Told(r.engine, engine))
  }

  function AfterRuntimePump(client: Client, scanner: Scanner, r: Runtime, now: int): Runtime {
    var worked := AfterWork(client, ReleasedDue(r, now));
    var back := CalledBack(scanner, worked, worked.engine.active);
    back.(engine := Swept(back.engine))
  }

  // The user's calls.

  function Begun(r: Runtime, item: Item, prepares: bool, now: int): Runtime {
    var queued := r.(items := r.items + [item]);
    var record := RecordOf(item);
    if !prepares then queued.(items := WithState(queued.items, item.id, Cancelled))
    else
      var prepared := queued.(engine := Prepared(r.engine, item.id, record.name), shown := queued.shown[item.id := Queued]);
      if !CanQueue(prepared.engine, record) then
        prepared.(items := WithState(prepared.items, item.id, Cancelled),
                  engine := Dropped(prepared.engine, StagedPath(record.name, item.id)))
      else
        var scheduled := prepared.(engine := AfterQueue(prepared.engine, record));
        if Future(item, now)
        then scheduled.(engine := TransferScheduler.AfterPause(scheduled.engine, item.id), waiting := scheduled.waiting + {item.id})
        else scheduled
  }

  function StateOf(r: Runtime, id: Text): Option<State> {
    var i := FindItem(r.items, id);
    if i < |r.items| then Some(r.items[i].state) else None
  }

  predicate Known(r: Runtime, id: Text, states: set<State>) {
    StateOf(r, id).Some? && StateOf(r, id).value in states
  }

  predicate CanPause(r: Runtime, id: Text) {
    Known(r, id, {Queued, Running, Paused, Failed}) && (IsPending(r.engine, id) || IsActive(r.engine, id))
  }

  function AfterRuntimePause(r: Runtime, id: Text): Runtime {
    if CanPause(r, id) then Marked(r.(engine := TransferScheduler.AfterPause(r.engine, id)), id, Paused) else r
  }

  function AfterRuntimeResume(r: Runtime, id: Text): Runtime {
    if !Known(r, id, {Paused}) then r
    else
      var let := r.(waiting := r.waiting - {id}, engine := TransferScheduler.AfterResume(r.engine, id));
      if id in r.engine.paused then Marked(let, id, Queued) else let
  }

  /** The staged file is discarded if it was opened in this session. */
  function AfterRuntimeCancel(r: Runtime, id: Text, discard: bool): Runtime {
    if !Known(r, id, {Queued, Running, Paused, Failed, Held, Blocked}) then r
    else
      var drops := if discard && id in r.engine.names then Some(r.engine.names[id]) else None;
      Marked(r.(engine := Runs.Withdrawn(r.engine, id, drops), decisions := r.decisions - {id}), id, Cancelled)
  }

  /** `prepares` says whether the destination can be prepared, both times it is asked for. */
  function AfterRuntimeRestart(r: Runtime, id: Text, prepares: (bool, bool)): Runtime {
    if !Known(r, id, {Completed, Failed, Cancelled, Held, Blocked}) then r
    else
      var record := RecordOf(r.items[FindItem(r.items, id)]);
      var stopped := r.(waiting := r.waiting - {id}, decisions := r.decisions - {id});
      if !prepares.0 then stopped.(engine := Runs.Withdrawn(r.engine, id, None))
      else if !prepares.1 then stopped.(engine := Runs.Withdrawn(r.engine, id, Some(record.name)))
      else Again(stopped.(engine := Runs.Withdrawn(r.engine, id, Some(record.name))), id, record)
  }

  /** The record queued again over an empty file. */
  function Again(r: Runtime, id: Text, record: Record): Runtime {
    var emptied := r.(engine := Runs.HasFile(r.engine, record), items := WithState(r.items, id, Queued));
    if CanQueue(emptied.engine, record)
    then emptied.(engine := AfterQueue(emptied.engine, record), shown := emptied.shown[id := Queued])
    else emptied
  }

  predicate Restarts(r: Runtime, id: Text, prepares: (bool, bool)) {
    && Known(r, id, {Completed, Failed, Cancelled, Held, Blocked}) && prepares.0 && prepares.1
    && CanQueue(AfterCancel(r.engine, id), RecordOf(r.items[FindItem(r.items, id)]))
  }

  // Reading the queue back.

  /** A record that is listed again goes to the scheduler, and waits there if it was paused or is not due. */
  function Requeued(r: Runtime, item: Item, wasPaused: bool, now: int): Runtime {
    var record := RecordOf(item);
    var scheduled := !wasPaused && Future(item, now);
    var told := r.(shown := r.shown[item.id := if wasPaused then Paused else Queued]);
    if !CanQueue(told.engine, record) then Marked(told, item.id, Failed)
    else
      var queued := told.(engine := AfterQueue(told.engine, record));
      if wasPaused || scheduled
      then queued.(engine := TransferScheduler.AfterPause(queued.engine, item.id),
                   waiting := if scheduled then queued.waiting + {item.id} else queued.waiting)
      else queued
  }

  /** One record read back: finished and private ones are dropped, held and blocked ones are not scheduled. */
  function ReopenedOne(r: Runtime, item: Item, prepares: Text -> bool, now: int): Runtime {
    if item.request.privateSession || item.state == Completed || item.state == Cancelled || !CanRestore(r.items, item) then r
    else
      var restored := RestoredItem(item);
      var record := RecordOf(restored);
      var listed := r.(items := r.items + [restored]);
      if !prepares(item.id) then Marked(listed, item.id, Failed)
      else
        var reached := listed.(engine := Prepared(listed.engine, item.id, record.name));
        if item.state == Held || item.state == Blocked then reached.(shown := reached.shown[item.id := item.state])
        else Requeued(reached, restored, item.state == Paused, now)
  }

  function ReopenedAll(r: Runtime, items: seq<Item>, prepares: Text -> bool, now: int): Runtime {
    if items == [] then r
    else ReopenedOne(ReopenedAll(r, items[..|items| - 1], prepares, now), items[|items| - 1], prepares, now)
  }

  /** The runtime over its queue of records and its scheduler. */
  class AdvancedDownloadRuntime {
    const queue: DownloadManager
    const scheduler: DownloadTransferScheduler
    const scanner: Scanner
    var waiting: set<Text>
    var shown: map<Text, State>
    var decisions: map<Text, Decision>
    var scans: nat
    var releases: seq<Release>

    constructor (c: Client, s: Scanner, staged: map<Path, seq<Cell>>, saved: map<Text, Checkpoint>)
      ensures scanner == s && scheduler.transport.client == c
      ensures fresh(queue) && fresh(scheduler) && fresh(scheduler.transport)
      ensures State() == Runtime(Engine([], [], {}, {}, [], [], staged, map[], 0, saved, map[], map[], {}, []), [], {}, map[], map[], 0, [])
    {
      var transport := new HttpDownloadTransport(c, staged);
      queue := new DownloadManager();
      scheduler := new DownloadTransferScheduler(transport, saved);
      scanner, waiting, shown, decisions, scans, releases := s, {}, map[], map[], 0, [];
    }

    ghost function State(): Runtime
      reads this, queue, scheduler, scheduler.transport
    {
      Runtime(scheduler.State(), queue.items, waiting, shown, decisions, scans, releases)
    }

    method Mark(id: Text, state: State)
      modifies this, queue`items
      ensures State() == Marked(old(State()), id, state)
    {
      shown := shown[id := state];
      waiting := waiting - {id};
      var found := queue.SetState(id, state);
    }

    /** Held and blocked downloads lose their checkpoint. */
    method MarkAndForget(id: Text, state: State)
      modifies this, queue`items, scheduler
      ensures State() == Marked(old(State()).(engine := Forgot(old(State()).engine, id)), id, state)
    {
      hide Forgot;
      scheduler.Forget(id);
      Mark(id, state);
    }

    method VerifyAndCommit(p: Plan, since: nat)
      modifies this, queue, scheduler, scheduler.transport
      ensures State() == Verified(scanner, old(State()), p, since)
    {
      hide WithState, Marked, VerdictOf, Concluded;
      if p.id !in scheduler.transport.names {
        Mark(p.id, Failed);
        return;
      }
      shown := shown[p.id := Verifying];
      var found := queue.SetState(p.id, Verifying);
      InspectStaged(p, since);
    }

    method InspectStaged(p: Plan, since: nat)
      requires p.id in scheduler.transport.names
      modifies this, queue, scheduler, scheduler.transport
      ensures State() == Concluded(old(State()), p.id, VerdictOf(scanner, old(State()), p, since))
    {
      hide FindItem, Marked, ScanVerdict, Contents, StagedFile, Forgot, StagedPath, Concluded, Refused;
      ghost var v := State();
      var staged := Contents(StagedFile(scheduler.State(), p.id));
      if HomeOf(scheduler.State(), p.id) !in scheduler.transport.files || |staged| != p.metadata.total {
        FailedIs(v, p.id, None);
        Mark(p.id, Failed);
        return;
      }
      var x := scanner(scans, p.id, staged);
      var item := queue.Find(p.id);
      if !x.readable || item.None? {
        RefusedIs(v, p.id, Blocked, None);
        MarkAndForget(p.id, Blocked);
        return;
      }
      ScanStaged(p, since, staged, x, item.value);
    }

    method ScanStaged(p: Plan, since: nat, staged: seq<byte>, x: Inspection, item: Item)
      requires p.id in scheduler.transport.names && HasItem(queue.items, p.id) && item == queue.items[FindItem(queue.items, p.id)]
      modifies this, queue, scheduler, scheduler.transport
      ensures State() == Concluded(old(State()), p.id, ScanVerdict(old(State()), p, since, staged, x))
    {
      hide Evaluate, DigestOf, ResourceId, FindItem, Marked, CommitVerdict, Forgot, Concluded, Refused;
      ghost var v := State();
      var request := ScanRequest(ResourceId(p.id), DigestOf(staged), |staged| % U64_LIMIT, item.request.privateSession);
      var d := Evaluate(request, x.response, x.now);
      scans := scans + 1;
      decisions := decisions[p.id := d];
      if d.disposition == HoldReview {
        RefusedIs(v, p.id, Held, Some(d));
        MarkAndForget(p.id, Held);
      } else if !d.canRelease {
        RefusedIs(v, p.id, Blocked, Some(d));
        MarkAndForget(p.id, Blocked);
      } else {
        CommitStaged(v, p, since, staged, request, d, x);
      }
    }

    method CommitStaged(ghost v: Runtime, p: Plan, since: nat, staged: seq<byte>, request: ScanRequest, d: Decision, x: Inspection)
      requires State() == v.(decisions := v.decisions[p.id := d], scans := v.scans + 1) && p.id in scheduler.transport.names
      modifies this, queue, scheduler, scheduler.transport
      ensures State() == Concluded(v, p.id, CommitVerdict(p, since, NameOf(v.engine, p.id), staged, request, d, x))
    {
      hide DigestOf, Marked, Forgot, Concluded, Refused, AfterCommit;
      var id := p.id;
      if x.after.None? || DigestOf(x.after.value) != DigestOf(staged) {
        decisions := decisions[id := ChangedDecision(d)];
        assert decisions == v.decisions[id := ChangedDecision(d)];
        RefusedIs(v, id, Blocked, Some(ChangedDecision(d)));
        MarkAndForget(id, Blocked);
        return;
      }
      if |x.after.value| != p.metadata.total {
        FailedIs(v, id, Some(d));
        Mark(id, Failed);
        return;
      }
      var path := scheduler.transport.names[id];
      scheduler.CommitFile(id, x.commit);
      CommitIs(v, id, x.commit, d, Release(p, since, path, x.after.value, request, x));
      if x.commit != Renamed {
        Mark(id, Failed);
        return;
      }
      releases := releases + [Release(p, since, path, x.after.value, request, x)];
      MarkAndForget(id, Completed);
    }

    method Handle(ev: Event)
      modifies this, queue, scheduler, scheduler.transport
      ensures State() == Handled(old(State()), ev)
    {
      hide WithState, Marked;
      match ev
      case Progress(p) =>
        var found := queue.SetState(p.id, Running);
        shown := shown[p.id := Running];
      case Failure(id) => Mark(id, Failed);
      case _ =>
    }

    /** The waiting downloads whose time has come, or whose record is gone. */
    method DueNow(now: int) returns (due: set<Text>)
      ensures due == Due(State(), now)
    {
      hide Future, FindItem;
      due := {};
      var left := waiting;
      while left != {}
        invariant left <= waiting
        invariant due == Due(State(), now) - left
        decreases |left|
      {
        var id :| id in left;
        var item := queue.Find(id);
        if item.None? || !Future(item.value, now) {
          due := due + {id};
        }
        left := left - {id};
      }
      assert due == Due(State(), now);
    }

    /** Starts that were waiting for their time, one by one. */
    method ReleaseDue(now: int)
      modifies this, scheduler
      ensures State() == ReleasedDue(old(State()), now)
    {
      hide Due, LetGoAll;
      var due := DueNow(now);
      ghost var gone: set<Text> := {};
      NobodyLetGo(State());
      while due != {}
        invariant gone !! due && gone + due == Due(old(State()), now)
        invariant State() == LetGoAll(old(State()), gone)
        decreases |due|
      {
        var id :| id in due;
        OneLetGo(old(State()), gone, id);
        waiting := waiting - {id};
        var held := scheduler.Resume(id);
        if held {
          shown := shown[id := Queued];
        }
        due, gone := due - {id}, gone + {id};
      }
      assert gone == Due(old(State()), now);
    }

    /** The transfers of a pump, and then the callbacks they made, in order. */
    method Work()
      modifies this, queue, scheduler, scheduler.transport
      ensures State() == AfterWork(scheduler.transport.client, old(State()))
    {
      hide Worked, Handled;
      var from := |scheduler.log|;
      scheduler.Work();
      var events := if from <= |scheduler.log| then scheduler.log[from..] else [];
      ghost var worked := State();
      var i := 0;
      while i < |events|
        invariant 0 <= i <= |events|
        invariant State() == HandledAll(worked, events[..i])
      {
        assert events[..i + 1][..i] == events[..i];
        Handle(events[i]);
        i := i + 1;
      }
      assert events[..i] == events;
      assert events == Told(old(State()).engine, worked.engine);
    }

    /** One pump: the transfers, and then the report loop, which calls back for each completion. */
    method Pump(now: int)
      modifies this, queue, scheduler, scheduler.transport
      ensures State() == AfterRuntimePump(scheduler.transport.client, scanner, old(State()), now)
    {
      hide AfterWork, ReleasedDue, ReportedBack, Settled;
      ReleaseDue(now);
      Work();
      ghost var worked := State();
      var actives := scheduler.active;
      var i := 0;
      while i < |actives|
        invariant 0 <= i <= |actives| == |scheduler.active| && scheduler.active == actives
        invariant State() == CalledBack(scanner, worked, actives[..i])
      {
        assert actives[..i + 1][..i] == actives[..i];
        Report(actives[i]);
        i := i + 1;
      }
      assert actives[..i] == actives;
      scheduler.Sweep();
    }

    method Report(a: Active)
      modifies this, queue, scheduler, scheduler.transport
      ensures State() == ReportedBack(scanner, old(State()), a) && scheduler.active == old(scheduler.active)
    {
      hide Verified, NotedComplete, FailedId, Marked;
      ReportedLists(scanner, State(), a);
      if a.finished {
        scheduler.NoteComplete(a);
        VerifyAndCommit(a.plan, a.since);
      }
      if a.failed {
        scheduler.FailRecord(a.record.id);
        Mark(a.record.id, Failed);
      }
    }

    /** A new download gets a fresh id, a file, and a place in the scheduler; a scheduled one waits there. */
    method Enqueue(request: Request, prepares: bool, now: int) returns (ok: bool, ghost item: Item)
      requires |queue.items| + 1 < U64_LIMIT
      modifies this, queue, scheduler, scheduler.transport
      ensures request.url == [] ==> !ok && State() == old(State())
      ensures request.url != [] ==>
                && item.request == request && item.state == Queued && item.segmentLimit == 16 && Numbered(item.id) && !HasItem(old(queue.items), item.id)
                && State() == Begun(old(State()), item, prepares, now)
                && (ok <==> prepares && CanQueue(old(scheduler.State()), RecordOf(item)))
    {
      hide FindItem, IdOf, Later, Future, FileName, StagedPath, Numbered;
      ghost var skipped: nat;
      var id: Option<Text>;
      id, skipped := queue.Enqueue(request);
      if id.None? {
        return false, Item([], request, Queued, 16, true);
      }
      item := Item(id.value, request, Queued, 16, true);
      IdsAreNumbered(Later(old(queue.nextId), skipped));
      AppendedFind(old(queue.items), item, id.value);
      var found := queue.Find(id.value);
      if found.None? {
        assert false;
        return false, item;
      }
      var record := RecordOf(found.value);
      if !prepares {
        var moved := queue.Transition(id.value, {Queued, Running, Paused, Failed, Held, Blocked}, Cancelled);
        return false, item;
      }
      scheduler.Prepare(id.value, record.name);
      shown := shown[id.value := Queued];
      ok := scheduler.Queue(record);
      SameCanQueue(old(scheduler.State()), id.value, record.name, record);
      if !ok {
        scheduler.Drop(StagedPath(record.name, id.value));
        var moved := queue.Transition(id.value, {Queued, Running, Paused, Failed, Held, Blocked}, Cancelled);
        return false, item;
      }
      if Future(found.value, now) {
        var held := scheduler.Pause(id.value);
        waiting := waiting + {id.value};
      }
    }

    method Pause(id: Text) returns (ok: bool)
      modifies this, queue, scheduler
      ensures ok == CanPause(old(State()), id) && State() == AfterRuntimePause(old(State()), id)
    {
      hide WithState, FindItem;
      var item := queue.Find(id);
      if item.None? || item.value.state !in {Queued, Running, Paused, Failed} {
        return false;
      }
      ok := scheduler.Pause(id);
      if ok {
        Mark(id, Paused);
      }
    }

    method Resume(id: Text) returns (ok: bool)
      modifies this, queue, scheduler
      ensures ok == (Known(old(State()), id, {Paused}) && id in old(scheduler.paused))
      ensures State() == AfterRuntimeResume(old(State()), id)
    {
      hide WithState, FindItem;
      var item := queue.Find(id);
      if item.None? || item.value.state != Paused {
        return false;
      }
      waiting := waiting - {id};
      ok := scheduler.Resume(id);
      if ok {
        Mark(id, Queued);
      }
    }

    method Cancel(id: Text, discard: bool) returns (ok: bool)
      modifies this, queue, scheduler, scheduler.transport
      ensures ok == Known(old(State()), id, {Queued, Running, Paused, Failed, Held, Blocked})
      ensures State() == AfterRuntimeCancel(old(State()), id, discard)
    {
      hide WithState, FindItem, AfterCancel;
      var item := queue.Find(id);
      if item.None? || item.value.state !in {Queued, Running, Paused, Failed, Held, Blocked} {
        return false;
      }
      var listed := scheduler.Cancel(id);
      Mark(id, Cancelled);
      scheduler.Forget(id);
      if discard && id in scheduler.transport.names {
        scheduler.Drop(StagedPath(scheduler.transport.names[id], id));
      }
      decisions := decisions - {id};
      return true;
    }

    method Restart(id: Text, prepares: (bool, bool)) returns (ok: bool)
      modifies this, queue, scheduler, scheduler.transport
      ensures ok == Restarts(old(State()), id, prepares) && State() == AfterRuntimeRestart(old(State()), id, prepares)
    {
      hide WithState, FindItem, FileName, CanQueue, AfterCancel, StagedPath, Off, Again;
      var item := queue.Find(id);
      if item.None? || item.value.state !in {Completed, Failed, Cancelled, Held, Blocked} {
        return false;
      }
      var record := RecordOf(item.value);
      Unschedule(id);
      if !prepares.0 {
        return false;
      }
      scheduler.Drop(StagedPath(record.name, id));
      if !prepares.1 {
        return false;
      }
      FoundId(old(queue.items), id);
      SameQueues(Runs.HasFile(scheduler.State(), record), AfterCancel(old(scheduler.State()), id), record);
      ok := BeginAgain(id, record);
    }

    /** A download stops before it is begun again. */
    method Unschedule(id: Text)
      modifies this, scheduler
      ensures var r := old(State());
        State() == r.(waiting := r.waiting - {id}, decisions := r.decisions - {id}, engine := Runs.Withdrawn(r.engine, id, None))
    {
      hide AfterCancel;
      var listed := scheduler.Cancel(id);
      waiting := waiting - {id};
      scheduler.Forget(id);
      decisions := decisions - {id};
    }

    /** An emptied download is listed as queued, and goes to the scheduler. */
    method BeginAgain(id: Text, record: Record) returns (ok: bool)
      modifies this, queue, scheduler, scheduler.transport
      ensures ok == CanQueue(Runs.HasFile(old(scheduler.State()), record), record) && State() == Again(old(State()), id, record)
    {
      hide WithState, CanQueue, StagedPath;
      scheduler.Prepare(record.id, record.name);
      var moved := queue.SetState(id, Queued);
      ok := scheduler.Queue(record);
      if ok {
        shown := shown[id := Queued];
      }
    }

    /** The records of the persistent queue, read back one by one. */
    method RestoreQueue(items: seq<Item>, prepares: Text -> bool, now: int)
      modifies this, queue, scheduler, scheduler.transport
      ensures State() == ReopenedAll(old(State()), items, prepares, now)
    {
      hide ReopenedOne;
      var i := 0;
      while i < |items|
        invariant 0 <= i <= |items| && State() == ReopenedAll(old(State()), items[..i], prepares, now)
      {
        assert items[..i + 1][..i] == items[..i];
        RestoreOne(items[i], prepares, now);
        i := i + 1;
      }
      assert items[..i] == items;
    }

    method RestoreOne(item: Item, prepares: Text -> bool, now: int)
      modifies this, queue, scheduler, scheduler.transport
      ensures State() == ReopenedOne(old(State()), item, prepares, now)
    {
      hide FindItem, WithState, FileName, RestoredItem, StagedPath, Marked, Requeued;
      if item.request.privateSession || item.state == Completed || item.state == Cancelled {
        return;
      }
      var added := queue.Restore(item);
      if !added {
        return;
      }
      var restored := RestoredItem(item);
      var record := RecordOf(restored);
      if !prepares(item.id) {
        Mark(item.id, Failed);
        return;
      }
      scheduler.Prepare(item.id, record.name);
      if item.state == Held || item.state == Blocked {
        shown := shown[item.id := item.state];
        return;
      }
      Requeue(restored, item.state == Paused, now);
    }

    method Requeue(item: Item, wasPaused: bool, now: int)
      modifies this, queue, scheduler
      ensures State() == Requeued(old(State()), item, wasPaused, now)
    {
      hide Marked, RecordOf, Future;
      var record := RecordOf(item);
      var scheduled := !wasPaused && Future(item, now);
      shown := shown[item.id := if wasPaused then Paused else Queued];
      var queued := scheduler.Queue(record);
      if !queued {
        Mark(item.id, Failed);
      } else if wasPaused || scheduled {
        var held := scheduler.Pause(item.id);
        if scheduled {
          waiting := waiting + {item.id};
        }
      }
    }
  }

  /** The decision noted, and the scanner's count. */
  function Deciding(r: Runtime, id: Text, decision: Option<Decision>): Runtime {
    r.(decisions := if decision.Some? then r.decisions[id := decision.value] else r.decisions,
       scans := if decision.Some? then r.scans + 1 else r.scans)
  }

  lemma RefusedIs(r: Runtime, id: Text, state: State, decision: Option<Decision>)
    ensures Concluded(r, id, Refused(state, decision)) == Marked(Deciding(r.(engine := Forgot(r.engine, id)), id, decision), id, state)
  {
    hide Marked, Forgot;
  }

  lemma FailedIs(r: Runtime, id: Text, decision: Option<Decision>)
    ensures Concluded(r, id, Verdict(Failed, Ending(NotMade, false), decision, None)) == Marked(Deciding(r, id, decision), id, Failed)
  {
    hide Marked;
  }

  lemma CommitIs(r: Runtime, id: Text, commit: Commit, d: Decision, x: Release)
    ensures var after := Deciding(r.(engine := AfterCommit(r.engine, id, commit)), id, Some(d));
      && Concluded(r, id, Verdict(Failed, Ending(commit, false), Some(d), None)) == Marked(after, id, Failed)
      && (commit == Renamed ==>
            Concluded(r, id, Verdict(Completed, Ending(Renamed, true), Some(d), Some(x)))
            == Marked(after.(engine := Forgot(after.engine, id), releases := r.releases + [x]), id, Completed))
  {
    hide Marked, AfterCommit, Forgot;
  }

  /** A report and its callback leave the scheduler's own lists alone. */
  lemma ReportedLists(scanner: Scanner, r: Runtime, a: Active)
    ensures Runs.ListsKept(r.engine, ReportedBack(scanner, r, a).engine)
  {
    hide VerdictOf, WithState, Finish, CompleteNow;
    var noted := r.(engine := NotedComplete(r.engine, a));
    VerifiedLists(scanner, noted, a.plan, a.since);
  }

  lemma VerifiedLists(scanner: Scanner, r: Runtime, p: Plan, since: nat)
    ensures Runs.ListsKept(r.engine, Verified(scanner, r, p, since).engine)
  {
    hide VerdictOf, WithState, Finish;
    Runs.FinishKeepsLists(r.engine, p.id, VerdictOf(scanner, Verifies(r, p.id), p, since).ending);
  }

  lemma NobodyLetGo(r: Runtime)
    ensures LetGoAll(r, {}) == r
  {
    assert r.waiting - {} == r.waiting && r.engine.paused - {} == r.engine.paused;
  }

  lemma OneLetGo(r: Runtime, gone: set<Text>, id: Text)
    ensures var s := LetGoAll(r, gone);
      LetGoAll(r, gone + {id}) ==
        s.(waiting := s.waiting - {id}, engine := TransferScheduler.AfterResume(s.engine, id),
           shown := if id in s.engine.paused then s.shown[id := Queued] else s.shown)
  {
    var s := LetGoAll(r, gone);
    var t := s.(waiting := s.waiting - {id}, engine := TransferScheduler.AfterResume(s.engine, id),
                shown := if id in s.engine.paused then s.shown[id := Queued] else s.shown);
    var all := LetGoAll(r, gone + {id});
    assert all.waiting == t.waiting;
    assert all.engine.paused == t.engine.paused;
    OneShown(r, gone, id);
  }

  lemma OneShown(r: Runtime, gone: set<Text>, id: Text)
    ensures var s := LetGoAll(r, gone);
      LetGoAll(r, gone + {id}).shown == if id in s.engine.paused then s.shown[id := Queued] else s.shown
  {
    var s := LetGoAll(r, gone);
    var shown := if id in s.engine.paused then s.shown[id := Queued] else s.shown;
    forall x
      ensures x in LetGoAll(r, gone + {id}).shown <==> x in shown
      ensures x in shown ==> LetGoAll(r, gone + {id}).shown[x] == shown[x]
    {
    }
  }

  /** Whether a record can be queued is not a matter of files. */
  lemma SameCanQueue(e: Engine, id: Text, name: Text, record: Record)
    ensures CanQueue(Prepared(e, id, name), record) == CanQueue(e, record)
  {
  }

  lemma SameQueues(e: Engine, f: Engine, record: Record)
    ensures f.pending == e.pending && f.active == e.active ==> CanQueue(e, record) == CanQueue(f, record)
  {
  }

  lemma FoundId(items: seq<Item>, id: Text)
    ensures HasItem(items, id) ==> RecordOf(items[FindItem(items, id)]).id == id
  {
  }

  /** Setting a state moves no record. */
  lemma FindKept(items: seq<Item>, id: Text, state: State)
    ensures |WithState(items, id, state)| == |items|
    ensures forall other :: FindItem(WithState(items, id, state), other) == FindItem(items, other)
    ensures forall i | 0 <= i < |items| :: WithState(items, id, state)[i] == if i == FindItem(items, id) then items[i].(state := state) else items[i]
  {
    var after := WithState(items, id, state);
    forall other
      ensures FindItem(after, other) == FindItem(items, other)
    {
      SameIds(items, after, other);
    }
  }

  lemma SameIds(a: seq<Item>, b: seq<Item>, id: Text)
    requires |a| == |b| && forall i | 0 <= i < |a| :: a[i].id == b[i].id
    ensures FindItem(a, id) == FindItem(b, id)
  {
  }
}
