/** The release gate over whole runs of the download runtime. */
module ReleaseGate {
  import opened Bytes
  import opened Wrappers
  import opened DownloadPlan
  import opened DownloadCheckpoint
  import opened StagedPaths
  import opened HttpTransport
  import opened TransferScheduler
  import opened SchedulerInvariants
  import opened SchedulerTheorems
  import opened PumpEvents
  import opened DownloadQueue
  import opened Wardveil
  import opened DownloadRuntime
  import Sha256

  // Runs, with restarts of the program in between.

  datatype RuntimeCall =
    | Begin(item: Item, prepares: bool, now: int)
    | PauseDownload(id: Text)
    | ResumeDownload(id: Text)
    | CancelDownload(id: Text, discard: bool)
    | RestartDownload(id: Text, prepared: (bool, bool))
    | PumpDownloads(now: int)
    | Reopen(stop: Stop, last: int, destinations: Text -> bool, now: int)

  /** Where the program ended before it is opened again: between calls; in the transfers of a last pump, with some of
      their callbacks made; between two of its reports; or in the callback of a report, which had done some of its work
      on the disk: removed what lay at the final path, moved the file there, erased the checkpoint, but not yet written
      the queue. */
  datatype Stop =
    | Between
    | InPump(scans: nat, runs: nat, torn: bool, told: nat)
    | InReports(count: nat)
    | InReport(count: nat, steps: nat)

  /** A new record has one of the queue's numbers, which no other record has, and the queue's limit of segments. */
  predicate New(r: Runtime, item: Item) {
    CanRestore(r.items, item) && item.state == Queued && Numbered(item.id) && item.segmentLimit == 16
  }

  /** What outlives the program: files, checkpoints, the queue, and the record of what was released. */
  function Reopening(r: Runtime): Runtime {
    Runtime(Ended(r.engine), [], {}, map[], map[], r.scans, r.releases)
  }

  /** The transfers of a pump that came as far as this engine, with the first of their callbacks. */
  function WorkedAsFar(r: Runtime, engine: Engine, told: nat): Runtime {
    var events := Told(r.engine, engine);
    HandledAll(r.(engine := engine), events[..Min(told, |events|)])
  }

  /** A pump as far as some of its reports. */
  function ReportedAsFar(c: Client, scanner: Scanner, r: Runtime, count: nat): Runtime {
    var worked := AfterWork(c, r);
    CalledBack(scanner, worked, worked.engine.active[..Min(count, |worked.engine.active|)])
  }

  /** The first steps of what a callback does to the disk. */
  function PartOf(ending: Ending, steps: nat): Ending {
    if steps == 0 then Ending(NotMade, false)
    else if steps == 1 && ending.commit == Renamed then Ending(Cleared, false)
    else if steps <= 2 then Ending(ending.commit, false)
    else ending
  }

  /** A verification that stops after some steps on the disk: its record says verifying. */
  function MidVerification(scanner: Scanner, r: Runtime, a: Active, steps: nat): Runtime {
    var noted := r.(engine := NotedComplete(r.engine, a));
    if a.plan.id !in noted.engine.names then noted
    else
      var v := VerdictOf(scanner, Verifies(noted, a.plan.id), a.plan, a.since);
      Noting(Verifies(noted, a.plan.id), a.plan.id, PartOf(v.ending, steps), v)
  }

  function StoppedAt(c: Client, scanner: Scanner, r: Runtime, stop: Stop, now: int): Runtime {
    var released := ReleasedDue(r, now);
    match stop
    case Between => r
    case InPump(scans, runs, torn, told) => WorkedAsFar(released, Interrupted(c, released.engine, scans, runs, torn), told)
    case InReports(count) => ReportedAsFar(c, scanner, released, count)
    case InReport(count, steps) =>
      var s := ReportedAsFar(c, scanner, released, count);
      if count < |s.engine.active| && s.engine.active[count].finished then MidVerification(scanner, s, s.engine.active[count], steps) else s
  }

  function Reopened(r: Runtime, prepares: Text -> bool, now: int): Runtime {
    ReopenedAll(Reopening(r), r.items, prepares, now)
  }

  function RuntimeStep(c: Client, scanner: Scanner, r: Runtime, call: RuntimeCall): Runtime {
    match call
    case Begin(item, prepares, now) => if New(r, item) then Begun(r, item, prepares, now) else r
    case PauseDownload(id) => AfterRuntimePause(r, id)
    case ResumeDownload(id) => AfterRuntimeResume(r, id)
    case CancelDownload(id, discard) => AfterRuntimeCancel(r, id, discard)
    case RestartDownload(id, prepares) => AfterRuntimeRestart(r, id, prepares)
    case PumpDownloads(now) => AfterRuntimePump(c, scanner, r, now)
    case Reopen(stop, last, prepares, now) => Reopened(StoppedAt(c, scanner, r, stop, last), prepares, now)
  }

  function FirstRuntime(): Runtime {
    Runtime(SchedulerInvariants.Empty(), [], {}, map[], map[], 0, [])
  }

  function RuntimeRun(c: Client, scanner: Scanner, calls: seq<RuntimeCall>): Runtime {
    if calls == [] then FirstRuntime()
    else RuntimeStep(c, scanner, RuntimeRun(c, scanner, calls[..|calls| - 1]), calls[|calls| - 1])
  }

  // The invariant.

  /** The scanner's answer is a finding of the contract's version and kind, from an authoritative producer that names
      itself, about this very download and these very bytes, with a window that had begun. */
  ghost predicate Bears(x: Inspection, id: Text, bytes: seq<byte>) {
    && x.response.succeeded && x.response.record.Some?
    && var f := x.response.record.value;
       && f.contractVersion == Ascii("0.1.0") && f.recordType == Ascii("scan_finding") && f.authoritative && f.producerId != []
       && f.resourceType == Ascii("browser_download") && f.resourceId == Ascii("browser:download:") + id
       && f.digest == Sha256.Hex(Sha256.Digest(bytes)) && 0 < f.observedAt < f.validUntil && f.observedAt <= x.now
  }

  /** Such a finding that has not expired, says clean, and comes with evidence. */
  ghost predicate Clears(x: Inspection, id: Text, bytes: seq<byte>) {
    && Bears(x, id, bytes) && x.now < x.response.record.value.validUntil
    && x.response.record.value.result == Clean && x.response.record.value.evidence != []
  }

  /** The scan was asked for about this download, this digest and this length. */
  ghost predicate Asks(request: ScanRequest, id: Text, bytes: seq<byte>) {
    && request.resourceId == Ascii("browser:download:") + id
    && request.digest == Sha256.Hex(Sha256.Digest(bytes)) && request.size as int == |bytes|
  }

  /** The bytes committed have the planned length, are those read again after the scan, and a clean finding bears on them. */
  ghost predicate Proper(x: Release) {
    && |x.bytes| == x.plan.metadata.total
    && x.inspection.readable && x.inspection.after == Some(x.bytes) && x.inspection.commit == Renamed
    && Clears(x.inspection, x.plan.id, x.bytes)
    && Asks(x.request, x.plan.id, x.bytes)
  }

  /** Only downloads in these states are with the scheduler. */
  ghost predicate Tracked(r: Runtime) {
    forall id | Listed(r.engine, id) :: Known(r, id, {Queued, Running, Paused, Failed})
  }

  /** Records have distinct ids, a name and a source. */
  ghost predicate Orderly(items: seq<Item>) {
    DistinctItems(items) && forall i | 0 <= i < |items| :: items[i].id != [] && items[i].request.url != []
  }

  ghost predicate HasRelease(r: Runtime, id: Text) {
    exists k | 0 <= k < |r.releases| :: r.releases[k].plan.id == id
  }

  ghost predicate Gated(r: Runtime) {
    && Sound(r.engine) && Resting(r.engine)
    && Orderly(r.items) && Tracked(r)
    && (forall k | 0 <= k < |r.releases| :: Proper(r.releases[k]))
    && (forall id | Known(r, id, {Completed}) :: HasRelease(r, id))
  }

  // States of records.

  lemma StateAfter(r: Runtime, id: Text, state: State, other: Text)
    ensures StateOf(r.(items := WithState(r.items, id, state)), other) ==
              if other == id && StateOf(r, id).Some? then Some(state) else StateOf(r, other)
  {
    FindKept(r.items, id, state);
  }

  lemma DistinctKept(items: seq<Item>, id: Text, state: State)
    ensures Orderly(items) ==> Orderly(WithState(items, id, state))
    ensures OnlyStates(items, WithState(items, id, state))
  {
    FindKept(items, id, state);
  }

  // Handling one event.

  /** Records may have changed their states, and nothing else. */
  ghost predicate OnlyStates(items: seq<Item>, after: seq<Item>) {
    |after| == |items| && forall i | 0 <= i < |items| :: after[i] == items[i].(state := after[i].state)
  }

  /** The scheduler's own lists are untouched, checkpoints only go, releases only come. */
  ghost predicate Beside(r: Runtime, s: Runtime) {
    && s.engine.pending == r.engine.pending && s.engine.active == r.engine.active
    && s.engine.paused == r.engine.paused && s.engine.cancelled == r.engine.cancelled
    && (forall id | id in s.engine.checkpoints :: id in r.engine.checkpoints && s.engine.checkpoints[id] == r.engine.checkpoints[id])
    && r.releases <= s.releases
    && (Orderly(r.items) ==> Orderly(s.items)) && OnlyStates(r.items, s.items)
    && (forall id :: StateOf(s, id).Some? <==> StateOf(r, id).Some?)
  }

  /** What a callback of the transfers does: only its own download changes state, to running or failed. */
  ghost predicate EventEffect(r: Runtime, s: Runtime, ev: Event) {
    && Beside(r, s) && s.releases == r.releases && s.engine == r.engine
    && (forall id | id != About(ev) :: StateOf(s, id) == StateOf(r, id))
    && (Known(s, About(ev), {Running, Failed}) || StateOf(s, About(ev)) == StateOf(r, About(ev)))
  }

  /** What a report does: only its own download changes state. A completion ends held, blocked, failed, or completed with
      a proper release; a failure ends failed. */
  ghost predicate ReportEffect(r: Runtime, s: Runtime, a: Active) {
    && Beside(r, s)
    && (forall id | id != a.record.id :: StateOf(s, id) == StateOf(r, id))
    && (!a.finished && !a.failed ==> StateOf(s, a.record.id) == StateOf(r, a.record.id))
    && (StateOf(r, a.record.id).Some? && (a.finished || a.failed) ==> Known(s, a.record.id, {Failed, Held, Blocked, Completed}))
    && (Known(s, a.record.id, {Completed}) ==>
          StateOf(s, a.record.id) == StateOf(r, a.record.id) || NewRelease(r, s, a.record.id))
    && NewProper(r, s)
  }

  /** s is r with one download's state set, if it is there at all. */
  ghost predicate Sets(r: Runtime, s: Runtime, id: Text, state: State) {
    && Beside(r, s)
    && forall other :: StateOf(s, other) == if other == id && StateOf(r, id).Some? then Some(state) else StateOf(r, other)
  }

  lemma MarkedSets(r: Runtime, id: Text, state: State)
    ensures Sets(r, Marked(r, id, state), id, state)
    ensures Marked(r, id, state).releases == r.releases && Marked(r, id, state).engine == r.engine
  {
    hide WithState, FindItem, Orderly;
    forall other
      ensures StateOf(Marked(r, id, state), other) == if other == id && StateOf(r, id).Some? then Some(state) else StateOf(r, other)
    {
      StateAfter(r, id, state, other);
      SameState(r.(items := WithState(r.items, id, state)), Marked(r, id, state), other);
    }
    DistinctKept(r.items, id, state);
  }

  lemma SameState(r: Runtime, s: Runtime, id: Text)
    requires s.items == r.items
    ensures StateOf(s, id) == StateOf(r, id)
  {
  }

  /** Only the records matter to states. */
  lemma SameStates(r: Runtime, s: Runtime)
    requires s.items == r.items
    ensures forall id :: StateOf(s, id) == StateOf(r, id)
  {
  }

  lemma BesideChains(r: Runtime, s: Runtime, t: Runtime)
    requires Beside(r, s) && Beside(s, t)
    ensures Beside(r, t)
  {
    hide StateOf;
  }

  // The verdict of a verification.

  /** A verification ends held, blocked or failed, or completed: then with a proper release and its file moved. */
  ghost predicate Fit(v: Verdict, p: Plan) {
    && v.state in {Failed, Held, Blocked, Completed}
    && (v.release.Some? <==> v.state == Completed)
    && (v.release.Some? ==> v.release.value.plan == p && Proper(v.release.value) && v.ending == Ending(Renamed, true) && v.decision.Some?)
    && (v.ending.commit == Renamed ==> v.release.Some?)
  }

  /** What the decision stands on, in the finding's own fields. */
  lemma ReleaseMeans(id: Text, bytes: seq<byte>, request: ScanRequest, x: Inspection)
    requires request.resourceId == ResourceId(id) && request.digest == DigestOf(bytes)
    ensures Evaluate(request, x.response, x.now).canRelease <==> Clears(x, id, bytes)
  {
    hide Sha256.Hex, Sha256.Digest, Ascii;
  }

  lemma CommitFits(p: Plan, since: nat, path: Path, staged: seq<byte>, request: ScanRequest, d: Decision, x: Inspection)
    requires request.resourceId == ResourceId(p.id) && request.digest == DigestOf(staged) && request.size as int == |staged|
    requires d == Evaluate(request, x.response, x.now) && d.canRelease && x.readable && |staged| == p.metadata.total
    ensures Fit(CommitVerdict(p, since, path, staged, request, d, x), p)
  {
    hide Evaluate, Clears, Sha256.Hex, Sha256.Digest, Ascii;
    if x.after.Some? && DigestOf(x.after.value) == DigestOf(staged) {
      ReleaseMeans(p.id, x.after.value, request, x);
    }
  }

  lemma ScanFits(r: Runtime, p: Plan, since: nat, staged: seq<byte>, x: Inspection)
    requires HasItem(r.items, p.id) && x.readable && |staged| == p.metadata.total
    ensures Fit(ScanVerdict(r, p, since, staged, x), p)
  {
    hide Evaluate, DigestOf, ResourceId, CommitVerdict, FindItem, HasItem, Proper;
    var request := ScanRequestOf(r, p.id, staged);
    var d := Evaluate(request, x.response, x.now);
    if d.canRelease {
      CommitFits(p, since, NameOf(r.engine, p.id), staged, request, d, x);
    }
  }

  lemma VerdictFits(scanner: Scanner, r: Runtime, p: Plan, since: nat)
    ensures Fit(VerdictOf(scanner, r, p, since), p)
  {
    hide ScanVerdict, HasItem, Proper, Contents, StagedFile, HomeOf;
    var staged := Contents(StagedFile(r.engine, p.id));
    if HasItem(r.items, p.id) && |staged| == p.metadata.total && scanner(r.scans, p.id, staged).readable {
      ScanFits(r, p, since, staged, scanner(r.scans, p.id, staged));
    }
  }

  /** What a verification notes besides the state. */
  lemma NotingBeside(r: Runtime, id: Text, ending: Ending, v: Verdict)
    ensures Beside(r, Noting(r, id, ending, v))
    ensures forall other :: StateOf(Noting(r, id, ending, v), other) == StateOf(r, other)
  {
    hide Finish, StateOf, Orderly;
    FinishKeepsLists(r.engine, id, ending);
    SameStates(r, Noting(r, id, ending, v));
    OnlyStatesSelf(r.items);
  }

  lemma VerifiesEffect(r: Runtime, id: Text)
    ensures Beside(r, Verifies(r, id)) && Verifies(r, id).releases == r.releases && Verifies(r, id).engine == r.engine
    ensures forall other | other != id :: StateOf(Verifies(r, id), other) == StateOf(r, other)
    ensures StateOf(Verifies(r, id), id).Some? <==> StateOf(r, id).Some?
  {
    hide StateOf, WithState, Orderly;
    MarkedSets(r, id, Verifying);
    MarkedItems(r, id, Verifying);
    SameStates(Marked(r, id, Verifying), Verifies(r, id));
  }

  lemma MarkedItems(r: Runtime, id: Text, state: State)
    ensures Marked(r, id, state) == r.(items := WithState(r.items, id, state), shown := r.shown[id := state], waiting := r.waiting - {id})
  {
  }

  /** A completion callback: one download's state is set, and releases come only as proper ones of its own. */
  lemma VerifiedEffect(scanner: Scanner, r: Runtime, p: Plan, since: nat)
    ensures var s := Verified(scanner, r, p, since);
      && Beside(r, s) && (forall other | other != p.id :: StateOf(s, other) == StateOf(r, other))
      && (StateOf(r, p.id).Some? ==> Known(s, p.id, {Failed, Held, Blocked, Completed}))
      && (Known(s, p.id, {Completed}) ==> NewRelease(r, s, p.id)) && NewProper(r, s)
      && |s.releases| <= |r.releases| + 1
  {
    hide Verifies, Noting, Marked, VerdictOf, Proper, StateOf, Beside;
    if p.id !in r.engine.names {
      MarkedSets(r, p.id, Failed);
    } else {
      var begun := Verifies(r, p.id);
      var v := VerdictOf(scanner, begun, p, since);
      var noted := Noting(begun, p.id, v.ending, v);
      VerdictFits(scanner, begun, p, since);
      VerifiesEffect(r, p.id);
      NotingBeside(begun, p.id, v.ending, v);
      NotedReleases(begun, p.id, v.ending, v);
      MarkedSets(noted, p.id, v.state);
      BesideChains(r, begun, noted);
      BesideChains(r, noted, Marked(noted, p.id, v.state));
      if v.release.Some? {
        assert noted.releases[|r.releases|].plan.id == p.id;
      }
    }
  }

  lemma NotedReleases(r: Runtime, id: Text, ending: Ending, v: Verdict)
    ensures Noting(r, id, ending, v).releases == if v.release.Some? && ending.commit == Renamed then r.releases + [v.release.value] else r.releases
  {
    hide Finish;
  }

  lemma NotedRuntime(r: Runtime, e: Engine)
    requires ListsKept(r.engine, e)
    ensures Beside(r, r.(engine := e)) && forall id :: StateOf(r.(engine := e), id) == StateOf(r, id)
  {
    hide StateOf, Orderly;
    SameStates(r, r.(engine := e));
    OnlyStatesSelf(r.items);
  }

  lemma ReportedEffect(scanner: Scanner, r: Runtime, a: Active)
    requires a.plan.id == a.record.id && !(a.finished && a.failed)
    ensures ReportEffect(r, ReportedBack(scanner, r, a), a)
  {
    hide Verified, Marked, Proper, StateOf, Beside, NotedComplete, FailedId;
    var s := ReportedBack(scanner, r, a);
    if a.finished {
      var noted := r.(engine := NotedComplete(r.engine, a));
      NotedLists(r.engine, a);
      NotedRuntime(r, noted.engine);
      VerifiedEffect(scanner, noted, a.plan, a.since);
      BesideChains(r, noted, s);
    } else if a.failed {
      var noted := r.(engine := FailedId(r.engine, a.record.id));
      NotedLists(r.engine, a);
      NotedRuntime(r, noted.engine);
      MarkedSets(noted, a.record.id, Failed);
      BesideChains(r, noted, s);
    } else {
      BesideSelf(r);
    }
  }

  lemma NotedLists(e: Engine, a: Active)
    ensures ListsKept(e, NotedComplete(e, a)) && ListsKept(e, FailedId(e, a.record.id))
  {
    hide CompleteNow;
  }

  lemma BesideSelf(r: Runtime)
    ensures Beside(r, r)
  {
    hide StateOf, Orderly;
    OnlyStatesSelf(r.items);
  }

  // The callbacks of the transfers.

  lemma HandledEffect(r: Runtime, ev: Event)
    ensures EventEffect(r, Handled(r, ev), ev)
  {
    hide Marked, FindItem, Sets, StateOf, Beside;
    BesideSelf(r);
    match ev
    case Failure(id) =>
      MarkedSets(r, id, Failed);
      SetsState(r, Marked(r, id, Failed), id, Failed);
    case Progress(p) =>
      MarkedSets(r, p.id, Running);
      MarkedItems(r, p.id, Running);
      RunningIsMarked(r, p.id);
      SetsState(r, Handled(r, ev), p.id, Running);
    case _ =>
  }

  lemma SetsState(r: Runtime, s: Runtime, id: Text, state: State)
    requires Sets(r, s, id, state)
    ensures Beside(r, s) && (forall other | other != id :: StateOf(s, other) == StateOf(r, other))
    ensures Known(s, id, {state}) || StateOf(s, id) == StateOf(r, id)
    ensures state == Running || state == Failed ==> Known(s, id, {Running, Failed}) || StateOf(s, id) == StateOf(r, id)
  {
    hide StateOf, Beside;
  }

  lemma RunningIsMarked(r: Runtime, id: Text)
    requires Sets(r, Marked(r, id, Running), id, Running)
    ensures Sets(r, r.(items := WithState(r.items, id, Running), shown := r.shown[id := Running]), id, Running)
  {
    hide StateOf, WithState, Orderly;
    SameStates(Marked(r, id, Running), r.(items := WithState(r.items, id, Running), shown := r.shown[id := Running]));
  }

  ghost predicate NewRelease(r: Runtime, s: Runtime, id: Text) {
    exists k | |r.releases| <= k < |s.releases| :: s.releases[k].plan.id == id
  }

  ghost predicate NewProper(r: Runtime, s: Runtime) {
    forall k | |r.releases| <= k < |s.releases| :: Proper(s.releases[k])
  }

  ghost predicate Silence(events: seq<Event>, id: Text) {
    forall k | 0 <= k < |events| :: About(events[k]) != id
  }

  /** What the callbacks of the transfers do: states may become running or failed, and nothing else happens. */
  ghost predicate WorkOutcome(r: Runtime, s: Runtime, events: seq<Event>, id: Text) {
    && Beside(r, s) && s.releases == r.releases && s.engine == r.engine
    && (Silence(events, id) ==> StateOf(s, id) == StateOf(r, id))
    && (StateOf(s, id) == StateOf(r, id) || Known(s, id, {Running, Failed}))
  }

  lemma {:induction false} HandledOutcome(r: Runtime, events: seq<Event>, id: Text)
    ensures WorkOutcome(r, HandledAll(r, events), events, id)
  {
    hide Handled, EventEffect, WorkOutcome;
    if events == [] {
      NoOutcome(r, id);
    } else {
      var before := events[..|events| - 1];
      HandledOutcome(r, before, id);
      HandledEffect(HandledAll(r, before), events[|events| - 1]);
      OutcomeStep(r, HandledAll(r, before), HandledAll(r, events), events, id);
    }
  }

  lemma NoOutcome(r: Runtime, id: Text)
    ensures WorkOutcome(r, r, [], id)
  {
    hide StateOf, Beside;
    BesideSelf(r);
  }

  lemma OutcomeStep(r: Runtime, s: Runtime, t: Runtime, events: seq<Event>, id: Text)
    requires events != [] && WorkOutcome(r, s, events[..|events| - 1], id) && EventEffect(s, t, events[|events| - 1])
    ensures WorkOutcome(r, t, events, id)
  {
    hide Proper, StateOf, Beside;
    BesideChains(r, s, t);
  }

  // The report loop.

  /** One of these downloads is this one, and it is over. */
  ghost predicate OverIn(actives: seq<Active>, id: Text) {
    exists i | 0 <= i < |actives| :: actives[i].record.id == id && (actives[i].finished || actives[i].failed)
  }

  ghost predicate WellReported(actives: seq<Active>) {
    forall i | 0 <= i < |actives| :: actives[i].plan.id == actives[i].record.id && !(actives[i].finished && actives[i].failed)
  }

  ghost predicate ReportsOutcome(r: Runtime, s: Runtime, actives: seq<Active>, id: Text) {
    && Beside(r, s) && NewProper(r, s)
    && (!OverIn(actives, id) ==> StateOf(s, id) == StateOf(r, id))
    && (Known(s, id, {Completed}) ==> Known(r, id, {Completed}) || NewRelease(r, s, id))
  }

  lemma {:induction false} CalledBackOutcome(scanner: Scanner, r: Runtime, actives: seq<Active>, id: Text)
    requires WellReported(actives)
    ensures ReportsOutcome(r, CalledBack(scanner, r, actives), actives, id)
  {
    hide ReportedBack, ReportEffect, ReportsOutcome;
    if actives == [] {
      NoReportsOutcome(r, id);
    } else {
      var before := actives[..|actives| - 1];
      CalledBackOutcome(scanner, r, before, id);
      ReportedEffect(scanner, CalledBack(scanner, r, before), actives[|actives| - 1]);
      ReportsStep(r, CalledBack(scanner, r, before), CalledBack(scanner, r, actives), actives, id);
    }
  }

  lemma NoReportsOutcome(r: Runtime, id: Text)
    ensures ReportsOutcome(r, r, [], id)
  {
    hide StateOf, Beside;
    BesideSelf(r);
  }

  lemma ReportsStep(r: Runtime, s: Runtime, t: Runtime, actives: seq<Active>, id: Text)
    requires actives != [] && ReportsOutcome(r, s, actives[..|actives| - 1], id) && ReportEffect(s, t, actives[|actives| - 1])
    ensures ReportsOutcome(r, t, actives, id)
  {
    hide Proper, StateOf, Beside;
    var last := |actives| - 1;
    BesideChains(r, s, t);
    BesideReleases(r, s);
    BesideReleases(s, t);
    if OverIn(actives[..last], id) {
      var i :| 0 <= i < last && actives[..last][i].record.id == id && (actives[..last][i].finished || actives[..last][i].failed);
      assert actives[i].record.id == id;
    }
    if NewRelease(r, s, id) {
      var k :| |r.releases| <= k < |s.releases| && s.releases[k].plan.id == id;
      assert t.releases[k].plan.id == id;
    }
    if NewRelease(s, t, id) {
      var k :| |s.releases| <= k < |t.releases| && t.releases[k].plan.id == id;
      assert t.releases[k].plan.id == id;
    }
  }

  lemma BesideReleases(r: Runtime, s: Runtime)
    requires Beside(r, s)
    ensures r.releases <= s.releases && OnlyStates(r.items, s.items) && (Orderly(r.items) ==> Orderly(s.items))
    ensures s.engine.active == r.engine.active && s.engine.pending == r.engine.pending && s.engine.cancelled == r.engine.cancelled
    ensures forall id | id in s.engine.checkpoints :: id in r.engine.checkpoints && s.engine.checkpoints[id] == r.engine.checkpoints[id]
  {
    hide StateOf, Orderly, OnlyStates;
  }

  /** A verdict is not touched by later reports about others. */
  lemma {:induction false} LaterLeaves(scanner: Scanner, r: Runtime, actives: seq<Active>, j: nat, id: Text)
    requires WellReported(actives) && j <= |actives| && forall k | j <= k < |actives| :: actives[k].record.id != id
    ensures StateOf(CalledBack(scanner, r, actives), id) == StateOf(CalledBack(scanner, r, actives[..j]), id)
  {
    hide ReportedBack, StateOf, Beside, Proper;
    if j == |actives| {
      assert actives[..j] == actives;
    } else {
      var before := actives[..|actives| - 1];
      assert before[..j] == actives[..j];
      LaterLeaves(scanner, r, before, j, id);
      ReportedEffect(scanner, CalledBack(scanner, r, before), actives[|actives| - 1]);
    }
  }

  // One pump.

  lemma LetGo(r: Runtime, now: int)
    requires Gated(r)
    ensures Gated(ReleasedDue(r, now)) && ReleasedDue(r, now).items == r.items && ReleasedDue(r, now).releases == r.releases
  {
    hide Sound, Due, Proper, Orderly, StateOf, Resting;
    var s := ReleasedDue(r, now);
    SoundFrame(r.engine, s.engine);
    SameRest(r.engine, s.engine);
    SameStates(r, s);
    forall id | Known(s, id, {Completed})
      ensures HasRelease(s, id)
    {
      assert Known(r, id, {Completed});
    }
    forall id | Listed(s.engine, id)
      ensures Known(s, id, {Queued, Running, Paused, Failed})
    {
      assert Listed(r.engine, id);
      assert Known(r, id, {Queued, Running, Paused, Failed});
    }
  }

  lemma SameRest(e: Engine, f: Engine)
    requires Resting(e) && f.active == e.active
    ensures Resting(f)
  {
  }

  /** What a pump leaves of one download's state. */
  ghost predicate PumpEffect(r: Runtime, s: Runtime, id: Text) {
    && (Listed(s.engine, id) ==> Listed(r.engine, id))
    && (!Listed(r.engine, id) ==> StateOf(s, id) == StateOf(r, id))
    && (Listed(s.engine, id) && StateOf(r, id).Some? ==> StateOf(s, id) == StateOf(r, id) || Known(s, id, {Running, Failed}))
    && (Known(s, id, {Completed}) ==> Known(r, id, {Completed}) || NewRelease(r, s, id))
  }

  /** The transfers of a pump and their callbacks. */
  lemma WorkEffect(c: Client, r: Runtime, id: Text)
    requires Gated(r)
    ensures var s := AfterWork(c, r);
      && s.engine == Worked(c, r.engine) && Sound(s.engine) && Orderly(s.items) && OnlyStates(r.items, s.items) && s.releases == r.releases
      && (Listed(s.engine, id) ==> Listed(r.engine, id))
      && (!Listed(r.engine, id) ==> StateOf(s, id) == StateOf(r, id))
      && (StateOf(s, id) == StateOf(r, id) || Known(s, id, {Running, Failed}))
  {
    var engine := Worked(c, r.engine);
    var p, events := r.(engine := engine), Told(r.engine, engine);
    WorkKeeps(c, r.engine);
    WorkSpeaks(c, r.engine);
    WorkTold(r.engine, engine);
    HandledOutcome(p, events, id);
    SameStates(r, p);
    BesideReleases(p, HandledAll(p, events));
    hide Sound, Resting, Worked, HandledAll, Told, Proper, Orderly, Listed, StateOf, Silence, Tracked, Beside, OnlyStates, Working;
  }

  /** What the transfers told their callbacks is about listed downloads. */
  lemma WorkTold(e: Engine, f: Engine)
    requires Working(e, f)
    ensures forall k | 0 <= k < |Told(e, f)| :: Listed(e, About(Told(e, f)[k]))
    ensures forall id | Listed(f, id) :: Listed(e, id)
    ensures forall id | !Listed(e, id) :: Silence(Told(e, f), id)
  {
    hide Listed, About;
  }

  /** The reports of a pump, and the removal. */
  lemma ReportsEffect(scanner: Scanner, r: Runtime, id: Text)
    requires Sound(r.engine) && Orderly(r.items)
    ensures var back := CalledBack(scanner, r, r.engine.active);
      var s := back.(engine := Swept(back.engine));
      && Sound(s.engine) && Resting(s.engine) && r.releases <= s.releases && NewProper(r, s) && Orderly(s.items)
      && (Listed(s.engine, id) ==> Listed(r.engine, id) && StateOf(s, id) == StateOf(r, id))
      && (!Listed(r.engine, id) ==> StateOf(s, id) == StateOf(r, id))
      && (Known(s, id, {Completed}) ==> Known(r, id, {Completed}) || NewRelease(r, s, id))
  {
    hide Sound, Resting, CalledBack, Proper, Orderly, StateOf, Beside, OnlyStates, Settled;
    var back := CalledBack(scanner, r, r.engine.active);
    var s := back.(engine := Swept(back.engine));
    SoundReported(r.engine);
    CalledBackOutcome(scanner, r, r.engine.active, id);
    BesideReleases(r, back);
    SoundFrame(r.engine, back.engine);
    SweptKeeps(back.engine);
    SameStates(back, s);
    SweptListed(back.engine, r.engine, id);
  }

  lemma SoundReported(e: Engine)
    requires Sound(e)
    ensures WellReported(e.active)
  {
    hide Sound;
    forall i | 0 <= i < |e.active|
      ensures e.active[i].plan.id == e.active[i].record.id && !(e.active[i].finished && e.active[i].failed)
    {
      SoundNames(e, i);
      NotBoth(e, i);
    }
  }

  /** Who is listed after the removal is not over. */
  lemma SweptListed(e: Engine, f: Engine, id: Text)
    requires Sound(f) && e.active == f.active && e.pending == f.pending && e.cancelled == f.cancelled
    ensures Listed(Swept(e), id) ==> Listed(f, id) && !OverIn(f.active, id)
    ensures OverIn(f.active, id) ==> Listed(f, id)
  {
    hide Sound, Settled;
    SettledAre(e.cancelled, e.active);
    SoundIds(f);
    SoundApart(f);
    if IsActive(Swept(e), id) {
      var j :| 0 <= j < |Swept(e).active| && Swept(e).active[j].record.id == id;
      assert Swept(e).active[j] in Swept(e).active;
      var k :| 0 <= k < |f.active| && f.active[k] == Swept(e).active[j];
      assert f.active[k].record.id == id;
    }
  }

  lemma SoundApart(e: Engine)
    requires Sound(e)
    ensures forall i, j | 0 <= i < |e.pending| && 0 <= j < |e.active| :: e.pending[i].id != e.active[j].record.id
  {
    hide ActiveSound, Genuine;
  }

  lemma PumpOne(c: Client, scanner: Scanner, r: Runtime, id: Text)
    requires Gated(r)
    ensures var worked := AfterWork(c, r);
      var back := CalledBack(scanner, worked, worked.engine.active);
      var s := back.(engine := Swept(back.engine));
      && Sound(s.engine) && Resting(s.engine) && r.releases <= s.releases && NewProper(r, s) && Orderly(s.items)
      && PumpEffect(r, s, id)
  {
    hide Sound, Resting, AfterWork, CalledBack, Proper, Orderly, Listed, StateOf, Swept, Tracked, OnlyStates, Worked;
    var worked := AfterWork(c, r);
    WorkEffect(c, r, id);
    ReportsEffect(scanner, worked, id);
  }

  /** What a whole pump of the runtime does to one download. */
  lemma PumpGates(c: Client, scanner: Scanner, r: Runtime, now: int)
    requires Gated(r)
    ensures Gated(AfterRuntimePump(c, scanner, r, now))
    ensures r.releases <= AfterRuntimePump(c, scanner, r, now).releases && NewProper(r, AfterRuntimePump(c, scanner, r, now))
    ensures forall id :: PumpEffect(r, AfterRuntimePump(c, scanner, r, now), id)
  {
    hide Sound, Resting, ReleasedDue, AfterWork, CalledBack, Swept, Proper, Orderly, Listed, StateOf;
    var released := ReleasedDue(r, now);
    var s := AfterRuntimePump(c, scanner, r, now);
    LetGo(r, now);
    LetGoListed(r, now);
    SameStates(r, released);
    forall id
      ensures PumpEffect(r, s, id)
    {
      PumpOne(c, scanner, released, id);
    }
    PumpOne(c, scanner, released, []);
    ReleasesKept(r, s);
    forall id | Listed(s.engine, id)
      ensures Known(s, id, {Queued, Running, Paused, Failed})
    {
      assert PumpEffect(r, s, id);
      assert Known(r, id, {Queued, Running, Paused, Failed});
    }
    forall id | Known(s, id, {Completed})
      ensures HasRelease(s, id)
    {
      assert PumpEffect(r, s, id);
      CompletedHasRelease(r, s, id);
    }
  }

  lemma LetGoListed(r: Runtime, now: int)
    ensures forall id :: Listed(ReleasedDue(r, now).engine, id) == Listed(r.engine, id)
  {
    hide Due;
  }

  lemma ReleasesKept(r: Runtime, s: Runtime)
    requires Gated(r) && r.releases <= s.releases && NewProper(r, s)
    ensures forall k | 0 <= k < |s.releases| :: Proper(s.releases[k])
  {
    hide Proper, Sound, Tracked, Known, Orderly;
  }

  lemma CompletedHasRelease(r: Runtime, s: Runtime, id: Text)
    requires Gated(r) && r.releases <= s.releases && (Known(r, id, {Completed}) || NewRelease(r, s, id))
    ensures HasRelease(s, id)
  {
    hide Proper, Sound, Tracked, Orderly, StateOf;
    if Known(r, id, {Completed}) {
      var k :| 0 <= k < |r.releases| && r.releases[k].plan.id == id;
      assert s.releases[k].plan.id == id;
    } else {
      var k :| |r.releases| <= k < |s.releases| && s.releases[k].plan.id == id;
      assert s.releases[k].plan.id == id;
    }
  }

  // The other calls: each is about one download.

  lemma GateKept(r: Runtime, s: Runtime, id: Text)
    requires Gated(r) && Sound(s.engine) && Resting(s.engine) && Orderly(s.items) && s.releases == r.releases
    requires forall other | other != id :: StateOf(s, other) == StateOf(r, other) && (Listed(s.engine, other) ==> Listed(r.engine, other))
    requires Listed(s.engine, id) ==> Known(s, id, {Queued, Running, Paused, Failed})
    requires Known(s, id, {Completed}) ==> Known(r, id, {Completed})
    ensures Gated(s)
  {
    hide Sound, Resting, Orderly, Proper, Listed, StateOf;
    forall other | Listed(s.engine, other)
      ensures Known(s, other, {Queued, Running, Paused, Failed})
    {
      if other != id {
        assert Known(r, other, {Queued, Running, Paused, Failed});
      }
    }
    forall other | Known(s, other, {Completed})
      ensures HasRelease(s, other)
    {
      assert Known(r, other, {Completed});
    }
  }

  lemma PauseListed(e: Engine, id: Text)
    requires Sound(e) && Resting(e)
    ensures Sound(TransferScheduler.AfterPause(e, id)) && Resting(TransferScheduler.AfterPause(e, id))
    ensures Sound(TransferScheduler.AfterResume(e, id)) && Resting(TransferScheduler.AfterResume(e, id))
    ensures forall other :: Listed(TransferScheduler.AfterPause(e, id), other) == Listed(e, other)
    ensures forall other :: Listed(TransferScheduler.AfterResume(e, id), other) == Listed(e, other)
  {
    hide Sound;
    SoundFrame(e, TransferScheduler.AfterPause(e, id));
    SoundFrame(e, TransferScheduler.AfterResume(e, id));
  }

  lemma PauseGates(r: Runtime, id: Text)
    requires Gated(r)
    ensures Gated(AfterRuntimePause(r, id)) && Gated(AfterRuntimeResume(r, id))
    ensures forall other | other != id :: StateOf(AfterRuntimePause(r, id), other) == StateOf(r, other)
    ensures forall other | other != id :: StateOf(AfterRuntimeResume(r, id), other) == StateOf(r, other)
    ensures StateOf(AfterRuntimePause(r, id), id) == if CanPause(r, id) then Some(Paused) else StateOf(r, id)
    ensures StateOf(AfterRuntimeResume(r, id), id) ==
              if Known(r, id, {Paused}) && id in r.engine.paused then Some(Queued) else StateOf(r, id)
  {
    hide Sound, Resting, Orderly, Proper, Listed, StateOf, TransferScheduler.AfterPause, TransferScheduler.AfterResume, WithState, Tracked, HasRelease;
    PauseListed(r.engine, id);
    if CanPause(r, id) {
      var p := r.(engine := TransferScheduler.AfterPause(r.engine, id));
      SameStates(r, p);
      MarkedSets(p, id, Paused);
      MarkedEngine(p, id, Paused);
      GateKept(r, AfterRuntimePause(r, id), id);
    }
    var let := r.(waiting := r.waiting - {id}, engine := TransferScheduler.AfterResume(r.engine, id));
    SameStates(r, let);
    if Known(r, id, {Paused}) && id in r.engine.paused {
      MarkedSets(let, id, Queued);
      MarkedEngine(let, id, Queued);
      GateKept(r, AfterRuntimeResume(r, id), id);
    } else if Known(r, id, {Paused}) {
      StillKnown(r, id);
      GateKept(r, let, id);
    }
  }

  lemma StillKnown(r: Runtime, id: Text)
    requires Gated(r)
    ensures Listed(r.engine, id) ==> Known(r, id, {Queued, Running, Paused, Failed})
  {
    hide Sound, Resting, Orderly, Proper, StateOf, Listed;
  }

  lemma MarkedEngine(r: Runtime, id: Text, state: State)
    ensures Marked(r, id, state).engine == r.engine && Marked(r, id, state).releases == r.releases
  {
  }

  /** After a cancellation in the scheduler the download is not listed, and nobody else is newly listed. */
  lemma CancelListed(e: Engine, id: Text)
    requires Sound(e) && Resting(e)
    ensures Sound(AfterCancel(e, id)) && Resting(AfterCancel(e, id)) && !Listed(AfterCancel(e, id), id)
    ensures forall other | Listed(AfterCancel(e, id), other) :: Listed(e, other)
  {
    hide Sound, Resting, WithoutRecord, WithoutActive;
    CancelKeeps(e, id);
    WithoutRecordIs(e.pending, id);
    WithoutActiveIs(e.active, id);
    forall other | Listed(AfterCancel(e, id), other)
      ensures Listed(e, other)
    {
      if IsPending(AfterCancel(e, id), other) {
        var i :| 0 <= i < |WithoutRecord(e.pending, id)| && WithoutRecord(e.pending, id)[i].id == other;
        assert WithoutRecord(e.pending, id)[i] in e.pending;
      } else {
        var i :| 0 <= i < |WithoutActive(e.active, id)| && WithoutActive(e.active, id)[i].record.id == other;
        assert WithoutActive(e.active, id)[i] in e.active;
      }
    }
  }

  /** Files and checkpoints may go without anyone being listed anew. */
  lemma StrippedListed(e: Engine, f: Engine)
    requires Sound(e) && Resting(e) && f == e.(files := f.files, names := f.names, checkpoints := f.checkpoints, over := f.over)
    requires forall id | id in f.checkpoints :: id in e.checkpoints && f.checkpoints[id] == e.checkpoints[id]
    ensures Sound(f) && Resting(f) && forall id :: Listed(f, id) == Listed(e, id)
  {
    hide Sound;
    SoundFrame(e, f);
  }

  lemma WithdrawnListed(e: Engine, id: Text, drops: Option<Text>)
    requires Sound(e) && Resting(e)
    ensures Sound(Withdrawn(e, id, drops)) && Resting(Withdrawn(e, id, drops)) && !Listed(Withdrawn(e, id, drops), id)
    ensures forall other | Listed(Withdrawn(e, id, drops), other) :: Listed(e, other)
  {
    hide Sound, Resting, AfterCancel, Listed;
    CancelListed(e, id);
    StrippedListed(AfterCancel(e, id), Withdrawn(e, id, drops));
  }

  lemma CancelGates(r: Runtime, id: Text, discard: bool)
    requires Gated(r)
    ensures Gated(AfterRuntimeCancel(r, id, discard))
    ensures forall other | other != id :: StateOf(AfterRuntimeCancel(r, id, discard), other) == StateOf(r, other)
    ensures StateOf(AfterRuntimeCancel(r, id, discard), id) ==
              if Known(r, id, {Queued, Running, Paused, Failed, Held, Blocked}) then Some(Cancelled) else StateOf(r, id)
  {
    hide Sound, Resting, Orderly, Proper, Listed, StateOf, Withdrawn, WithState, Tracked, HasRelease;
    if Known(r, id, {Queued, Running, Paused, Failed, Held, Blocked}) {
      var s := AfterRuntimeCancel(r, id, discard);
      var drops := if discard && id in r.engine.names then Some(r.engine.names[id]) else None;
      var v := r.(engine := Withdrawn(r.engine, id, drops), decisions := r.decisions - {id});
      WithdrawnListed(r.engine, id, drops);
      SameStates(r, v);
      MarkedSets(v, id, Cancelled);
      MarkedEngine(v, id, Cancelled);
      GateKept(r, s, id);
    }
  }

  lemma QueueListed(e: Engine, record: Record)
    requires Sound(e) && Resting(e)
    ensures Sound(AfterQueue(e, record)) && Resting(AfterQueue(e, record))
    ensures forall other | other != record.id :: Listed(AfterQueue(e, record), other) == Listed(e, other)
  {
    hide Sound;
    QueueKeeps(e, record);
    if CanQueue(e, record) {
      var after := e.pending + [record];
      forall other | other != record.id
        ensures IsPending(AfterQueue(e, record), other) == IsPending(e, other)
      {
        assert forall i | 0 <= i < |e.pending| :: after[i] == e.pending[i];
      }
    }
  }

  lemma RestartGates(r: Runtime, id: Text, prepared: (bool, bool))
    requires Gated(r)
    ensures Gated(AfterRuntimeRestart(r, id, prepared))
    ensures forall other | other != id :: StateOf(AfterRuntimeRestart(r, id, prepared), other) == StateOf(r, other)
    ensures StateOf(AfterRuntimeRestart(r, id, prepared), id) ==
              if Known(r, id, {Completed, Failed, Cancelled, Held, Blocked}) && prepared.0 && prepared.1 then Some(Queued) else StateOf(r, id)
  {
    hide Sound, Resting, Orderly, Proper, Listed, StateOf, Withdrawn, AfterQueue, CanQueue, WithState, Tracked, HasRelease, FindItem, FileName;
    if Known(r, id, {Completed, Failed, Cancelled, Held, Blocked}) {
      var s := AfterRuntimeRestart(r, id, prepared);
      KnownRecord(r, id);
      var record := RecordOf(r.items[FindItem(r.items, id)]);
      var stopped := r.(waiting := r.waiting - {id}, decisions := r.decisions - {id});
      SameStates(r, stopped);
      WithdrawnListed(r.engine, id, None);
      WithdrawnListed(r.engine, id, Some(record.name));
      if !prepared.0 || !prepared.1 {
        SameStates(r, s);
        GateKept(r, s, id);
      } else {
        var engine := Withdrawn(r.engine, id, Some(record.name));
        var emptied := stopped.(engine := HasFile(engine, record), items := WithState(stopped.items, id, Queued));
        StrippedListed(engine, emptied.engine);
        MarkedSets(stopped, id, Queued);
        SameStates(Marked(stopped, id, Queued), emptied);
        MarkedItems(stopped, id, Queued);
        QueueListed(emptied.engine, record);
        SameStates(emptied, s);
        GateKept(r, s, id);
      }
    }
  }

  lemma KnownRecord(r: Runtime, id: Text)
    requires StateOf(r, id).Some?
    ensures FindItem(r.items, id) < |r.items| && RecordOf(r.items[FindItem(r.items, id)]).id == id
  {
  }

  lemma AppendedState(r: Runtime, item: Item, other: Text)
    requires !HasItem(r.items, item.id)
    ensures StateOf(r.(items := r.items + [item]), other) == if other == item.id then Some(item.state) else StateOf(r, other)
  {
    var after := r.items + [item];
    AppendedFind(r.items, item, other);
  }

  lemma AppendedOrderly(items: seq<Item>, item: Item)
    requires Orderly(items) && CanRestore(items, item)
    ensures Orderly(items + [item])
  {
    NewIsDistinct(items, item);
  }

  /** A record added with its state, its file made ready, and perhaps queued with the scheduler. */
  lemma AddedGates(r: Runtime, item: Item, v: Runtime, s: Runtime, engine: Engine)
    requires Gated(r) && CanRestore(r.items, item)
    requires v == r.(items := r.items + [item], engine := v.engine, shown := v.shown, waiting := v.waiting)
    requires engine == r.engine.(files := engine.files, names := engine.names, over := engine.over)
    requires v.engine == engine || v.engine == AfterQueue(engine, RecordOf(item))
             || v.engine == TransferScheduler.AfterPause(AfterQueue(engine, RecordOf(item)), item.id)
    requires (s == v && item.state in {Queued, Paused, Failed}) || (s == v && v.engine == engine && item.state in {Held, Blocked})
             || (s == v.(items := WithState(v.items, item.id, Cancelled)) && v.engine == engine)
             || (s == Marked(v, item.id, Failed) && v.engine == engine)
    ensures Gated(s) && s.releases == r.releases
    ensures forall other | other != item.id :: StateOf(s, other) == StateOf(r, other)
    ensures s == v ==> StateOf(s, item.id) == Some(item.state)
    ensures s == Marked(v, item.id, Failed) ==> StateOf(s, item.id) == Some(Failed)
  {
    hide Sound, Resting, Orderly, Proper, Listed, StateOf, AfterQueue, WithState, Tracked, HasRelease, FindItem, HasItem, TransferScheduler.AfterPause;
    var id := item.id;
    AppendedOrderly(r.items, item);
    SameStates(r.(items := r.items + [item]), v);
    forall other
      ensures StateOf(v, other) == if other == id then Some(item.state) else StateOf(r, other)
    {
      AppendedState(r, item, other);
    }
    MarkedSets(v, id, Cancelled);
    MarkedItems(v, id, Cancelled);
    SameStates(Marked(v, id, Cancelled), v.(items := WithState(v.items, id, Cancelled)));
    MarkedSets(v, id, Failed);
    MarkedItems(v, id, Failed);
    StrippedListed(r.engine, engine);
    QueueListed(engine, RecordOf(item));
    PauseListed(AfterQueue(engine, RecordOf(item)), id);
    Unlisted(r, id);
    GateKept(r, s, id);
  }

  lemma Unlisted(r: Runtime, id: Text)
    requires Gated(r) && !HasItem(r.items, id)
    ensures !Listed(r.engine, id)
  {
    hide Sound, Resting, Orderly, Proper, Listed, HasRelease;
  }

  lemma BeginGates(r: Runtime, item: Item, prepares: bool, now: int)
    requires Gated(r) && New(r, item)
    ensures Gated(Begun(r, item, prepares, now)) && Begun(r, item, prepares, now).releases == r.releases
    ensures forall other | other != item.id :: StateOf(Begun(r, item, prepares, now), other) == StateOf(r, other)
  {
    hide Gated, StateOf, AfterQueue, WithState, HasItem, Marked, CanQueue, TransferScheduler.AfterPause, Future, FileName;
    var s := Begun(r, item, prepares, now);
    var queued := r.(items := r.items + [item]);
    if !prepares {
      AddedGates(r, item, queued, s, r.engine);
    } else {
      var engine := Prepared(r.engine, item.id, RecordOf(item).name);
      var prepared := queued.(engine := engine, shown := queued.shown[item.id := Queued]);
      if !CanQueue(engine, RecordOf(item)) {
        var removed := Dropped(engine, StagedPath(RecordOf(item).name, item.id));
        AddedGates(r, item, prepared.(engine := removed), s, removed);
      } else {
        AddedGates(r, item, s, s, engine);
      }
    }
  }

  /** A record that is listed again is queued, or failed if it cannot be. */
  lemma RequeuedLooks(r: Runtime, item: Item, wasPaused: bool, now: int)
    ensures var s := Requeued(r, item, wasPaused, now);
      && s.engine.files == r.engine.files && s.engine.names == r.engine.names && s.engine.active == r.engine.active
      && (s.engine.pending == r.engine.pending || s.engine.pending == r.engine.pending + [RecordOf(item)])
      && (s.items == r.items || s.items == WithState(r.items, item.id, Failed))
  {
    hide Marked, Future, RecordOf, CanQueue, IsPending, IsActive;
    var told := r.(shown := r.shown[item.id := if wasPaused then Paused else Queued]);
    MarkedItems(told, item.id, Failed);
    MarkedEngine(told, item.id, Failed);
  }

  /** A record read back is passed over, or listed again, perhaps as failed, and its file perhaps opened. */
  lemma ReopenedLooks(r: Runtime, item: Item, prepares: Text -> bool, now: int)
    ensures var s, restored := ReopenedOne(r, item, prepares, now), RestoredItem(item);
      s == r
      || (item.state != Completed && item.state != Cancelled && CanRestore(r.items, item)
          && (s.items == r.items + [restored] || s.items == WithState(r.items + [restored], item.id, Failed))
          && s.engine.active == r.engine.active
          && (s.engine.pending == r.engine.pending || s.engine.pending == r.engine.pending + [RecordOf(restored)])
          && ((s.engine.names == r.engine.names && s.engine.files == r.engine.files)
              || (s.engine.names == Prepared(r.engine, item.id, FileName(item.request)).names
                  && s.engine.files == Prepared(r.engine, item.id, FileName(item.request)).files)))
  {
    hide FileName, WithState, CanRestore, Requeued, RestoredItem, StagedPath;
    var restored := RestoredItem(item);
    var listed := r.(items := r.items + [restored]);
    var reached := listed.(engine := Prepared(listed.engine, item.id, FileName(item.request)));
    RequeuedLooks(reached, restored, item.state == Paused, now);
  }

  /** One record read back: what it becomes, and that nobody else is touched. */
  ghost predicate ReadBack(r: Runtime, s: Runtime, item: Item, prepares: Text -> bool) {
    && s.releases == r.releases
    && (forall other | other != item.id :: StateOf(s, other) == StateOf(r, other))
    && (!item.request.privateSession && (item.state == Held || item.state == Blocked) && CanRestore(r.items, item) ==>
          StateOf(s, item.id) == Some(if prepares(item.id) then item.state else Failed))
    && (StateOf(s, item.id) == StateOf(r, item.id) || (!item.request.privateSession && StateOf(s, item.id) != Some(Completed)))
  }

  lemma ReopenOneGates(r: Runtime, item: Item, prepares: Text -> bool, now: int)
    requires Gated(r)
    ensures Gated(ReopenedOne(r, item, prepares, now)) && ReadBack(r, ReopenedOne(r, item, prepares, now), item, prepares)
  {
    hide Gated, StateOf, AfterQueue, WithState, HasItem, Marked, CanQueue, TransferScheduler.AfterPause, Future, FileName;
    if !(item.request.privateSession || item.state == Completed || item.state == Cancelled || !CanRestore(r.items, item)) {
      var s, restored := ReopenedOne(r, item, prepares, now), RestoredItem(item);
      var listed := r.(items := r.items + [restored]);
      if !prepares(item.id) {
        AddedGates(r, restored, listed, s, r.engine);
      } else {
        var engine := Prepared(r.engine, item.id, RecordOf(restored).name);
        if item.state == Held || item.state == Blocked {
          AddedGates(r, restored, s, s, engine);
        } else {
          var told := listed.(engine := engine, shown := listed.shown[item.id := if item.state == Paused then Paused else Queued]);
          if !CanQueue(engine, RecordOf(restored)) {
            AddedGates(r, restored, told, s, engine);
          } else {
            AddedGates(r, restored, s, s, engine);
          }
        }
      }
    }
  }

  lemma {:induction false} ReopenGates(r: Runtime, items: seq<Item>, prepares: Text -> bool, now: int, i: nat)
    requires Gated(r) && r.items == [] && Orderly(items)
    ensures var s := ReopenedAll(r, items, prepares, now);
      && Gated(s) && s.releases == r.releases
      && (forall id | StateOf(s, id).Some? ::
            StateOf(s, id) != Some(Completed) && exists k | 0 <= k < |items| :: items[k].id == id && !items[k].request.privateSession)
      && (i < |items| && !items[i].request.privateSession && (items[i].state == Held || items[i].state == Blocked) ==>
            StateOf(s, items[i].id) == Some(if prepares(items[i].id) then items[i].state else Failed))
  {
    hide Gated, ReopenedOne;
    if items == [] {
      NobodyThere(r);
    } else {
      var last := |items| - 1;
      var before := ReopenedAll(r, items[..last], prepares, now);
      ReopenGates(r, items[..last], prepares, now, i);
      ReopenOneGates(before, items[last], prepares, now);
      var s := ReopenedAll(r, items, prepares, now);
      forall id | StateOf(s, id).Some?
        ensures StateOf(s, id) != Some(Completed) && exists k | 0 <= k < |items| :: items[k].id == id && !items[k].request.privateSession
      {
        if StateOf(s, id) == StateOf(before, id) {
          var k :| 0 <= k < last && items[..last][k].id == id && !items[..last][k].request.privateSession;
          assert items[k].id == id;
        } else {
          assert items[last].id == id;
        }
      }
      if i == last {
        forall id | StateOf(before, id).Some?
          ensures exists k | 0 <= k < |items| - 1 :: items[k].id == id
        {
          var k :| 0 <= k < last && items[..last][k].id == id && !items[..last][k].request.privateSession;
          assert items[k].id == id;
        }
        NotYetThere(before, items);
      }
    }
  }

  lemma NobodyThere(r: Runtime)
    requires r.items == []
    ensures forall id :: StateOf(r, id) == None
  {
  }

  lemma NotYetThere(r: Runtime, items: seq<Item>)
    requires items != [] && Orderly(items)
    requires forall id | StateOf(r, id).Some? :: exists k | 0 <= k < |items| - 1 :: items[k].id == id
    ensures CanRestore(r.items, items[|items| - 1])
  {
    assert StateOf(r, items[|items| - 1].id) == None;
  }

  // Main results.

  predicate Private(r: Runtime, id: Text) {
    HasItem(r.items, id) && r.items[FindItem(r.items, id)].request.privateSession
  }

  /** What a call may do to one download's state: leaving held or blocked takes a cancellation or a restart of that
      download, or its program opening again, when it stays unless it is private, and so forgotten, or has no place
      for its file; reaching completed takes a pump in which it was released. */
  ghost predicate GateHolds(r: Runtime, call: RuntimeCall, s: Runtime, id: Text) {
    && (Known(r, id, {Held, Blocked}) && StateOf(s, id) != StateOf(r, id) ==>
          || (call.CancelDownload? && call.id == id)
          || (call.RestartDownload? && call.id == id)
          || call.Reopen?)
    && (Known(r, id, {Held, Blocked}) && call.Reopen? ==>
          StateOf(s, id) == if Private(r, id) then None else if call.destinations(id) then StateOf(r, id) else Some(Failed))
    && (Known(s, id, {Completed}) ==> Known(r, id, {Completed}) || (call.PumpDownloads? && NewRelease(r, s, id)))
  }

  // The end of the program.

  /** What has to be in order for the program to open again. */
  ghost predicate OnDisk(r: Runtime) {
    && Orderly(r.items) && (forall k | 0 <= k < |r.releases| :: Proper(r.releases[k]))
    && (forall id | id in r.engine.checkpoints :: Genuine(r.engine.checkpoints[id]))
  }

  lemma ReopeningGated(r: Runtime)
    requires OnDisk(r)
    ensures Gated(Reopening(r))
  {
    hide Genuine, ActiveSound, Proper, DistinctIds;
    NothingListed(Reopening(r).engine);
    NobodyThere(Reopening(r));
  }

  lemma GatedOnDisk(r: Runtime)
    requires Gated(r)
    ensures OnDisk(r)
  {
    hide Orderly, Proper, Genuine, Tracked, HasRelease, Known, Sound, Resting;
    GatedSound(r);
    CheckpointsGenuine(r.engine);
  }

  lemma ReleasesStayProper(r: Runtime, s: Runtime)
    requires (forall k | 0 <= k < |r.releases| :: Proper(r.releases[k])) && r.releases <= s.releases && NewProper(r, s)
    ensures forall k | 0 <= k < |s.releases| :: Proper(s.releases[k])
  {
    hide Proper;
  }

  /** What a stop leaves: everything in order, and whoever was not listed untouched. */
  ghost predicate Stopped(r: Runtime, s: Runtime, id: Text) {
    && OnDisk(s) && r.releases <= s.releases && OnlyStates(r.items, s.items)
    && (!Listed(r.engine, id) ==> StateOf(s, id) == StateOf(r, id))
  }

  lemma StoppedInWork(r: Runtime, engine: Engine, told: nat, id: Text)
    requires Gated(r) && (forall x | x in engine.checkpoints :: Genuine(engine.checkpoints[x]))
    requires forall k | 0 <= k < |Told(r.engine, engine)| :: Listed(r.engine, About(Told(r.engine, engine)[k]))
    ensures Stopped(r, WorkedAsFar(r, engine, told), id)
  {
    hide Gated, HandledAll, Told, Proper, Orderly, Listed, Genuine, StateOf, Beside;
    var events := Told(r.engine, engine);
    var p, some := r.(engine := engine), events[..Min(told, |events|)];
    GatedOnDisk(r);
    HandledOutcome(p, some, id);
    BesideReleases(p, HandledAll(p, some));
    SameStates(r, p);
  }

  lemma StoppedInReports(c: Client, scanner: Scanner, r: Runtime, count: nat, id: Text)
    requires Gated(r)
    ensures Stopped(r, ReportedAsFar(c, scanner, r, count), id)
    ensures ReportedAsFar(c, scanner, r, count).engine.active == Worked(c, r.engine).active
  {
    hide Gated, AfterWork, CalledBack, Proper, Orderly, Listed, Genuine, StateOf, Beside, OnlyStates, Sound, WellReported, Worked;
    var worked := AfterWork(c, r);
    var some := worked.engine.active[..Min(count, |worked.engine.active|)];
    var s := CalledBack(scanner, worked, some);
    GatedOnDisk(r);
    WorkEffect(c, r, id);
    SoundReported(worked.engine);
    FewerReported(worked.engine.active, |some|);
    CalledBackOutcome(scanner, worked, some, id);
    BesideReleases(worked, s);
    CheckpointsGenuine(worked.engine);
    OnlyStatesChain(r.items, worked.items, s.items);
    ReleasesStayProper(worked, s);
    PartOver(worked.engine, |some|, id);
  }

  lemma FewerReported(actives: seq<Active>, n: nat)
    requires WellReported(actives) && n <= |actives|
    ensures WellReported(actives[..n])
  {
  }

  lemma PartOver(e: Engine, n: nat, id: Text)
    requires n <= |e.active|
    ensures OverIn(e.active[..n], id) ==> Listed(e, id)
  {
    if OverIn(e.active[..n], id) {
      var i :| 0 <= i < n && e.active[..n][i].record.id == id;
      assert e.active[i].record.id == id;
    }
  }

  /** A verification stopped in the middle. */
  lemma MidVerificationGates(scanner: Scanner, r: Runtime, a: Active, steps: nat)
    requires OnDisk(r) && a.plan.id == a.record.id
    ensures var s := MidVerification(scanner, r, a, steps);
      && OnDisk(s) && r.releases <= s.releases && OnlyStates(r.items, s.items)
      && (forall id | id != a.record.id :: StateOf(s, id) == StateOf(r, id))
  {
    hide VerdictOf, Proper, Orderly, Genuine, StateOf, Verifies, Noting, NotedComplete, Beside, OnlyStates;
    var noted := r.(engine := NotedComplete(r.engine, a));
    NotedLists(r.engine, a);
    NotedRuntime(r, noted.engine);
    if a.plan.id !in noted.engine.names {
      BesideReleases(r, noted);
    } else {
      var begun := Verifies(noted, a.plan.id);
      var v := VerdictOf(scanner, begun, a.plan, a.since);
      var ending := PartOf(v.ending, steps);
      var s := Noting(begun, a.plan.id, ending, v);
      VerdictFits(scanner, begun, a.plan, a.since);
      VerifiesEffect(noted, a.plan.id);
      NotingBeside(begun, a.plan.id, ending, v);
      NotedReleases(begun, a.plan.id, ending, v);
      BesideChains(r, noted, begun);
      BesideChains(r, begun, s);
      BesideReleases(r, s);
      ReleasesStayProper(r, s);
    }
  }

  lemma OnlyStatesSelf(items: seq<Item>)
    ensures OnlyStates(items, items)
  {
  }

  lemma OnlyStatesChain(a: seq<Item>, b: seq<Item>, c: seq<Item>)
    requires OnlyStates(a, b) && OnlyStates(b, c)
    ensures OnlyStates(a, c)
  {
  }

  /** What an interrupted pump told its callbacks is about listed downloads. */
  lemma InterruptedWorks(c: Client, e: Engine, scans: nat, runs: nat, torn: bool)
    requires Sound(e)
    ensures Working(e, Interrupted(c, e, scans, runs, torn).(active := RunUpTo(c, ActivateUpTo(c, e, Min(scans, |e.pending|)), Min(runs, |ActivateUpTo(c, e, Min(scans, |e.pending|)).active|)).active))
  {
    hide Sound, ActivateUpTo, RunUpTo, FilesAfter, Listed;
    var activated := ActivateUpTo(c, e, Min(scans, |e.pending|));
    var n := Min(runs, |activated.active|);
    var ran := RunUpTo(c, activated, n);
    ActivationWorks(c, e, Min(scans, |e.pending|));
    ActivationKeeps(c, e, Min(scans, |e.pending|));
    RunWorks(c, activated, n);
    RunKeeps(c, activated, n);
    WorkingChains(e, activated, ran);
    var f := Interrupted(c, e, scans, runs, torn);
    if f != ran {
      StreamingWorks(c, ran, n, FirstUnfinished(ran.active[n].plan.segments));
      WorkingChains(e, ran, f);
    }
  }

  lemma StreamingWorks(c: Client, e: Engine, i: nat, k: nat)
    requires i < |e.active| && k < |e.active[i].plan.segments|
    ensures Working(e, AfterStreaming(c, e, i, k))
  {
    hide FilesAfter;
    var f := AfterStreaming(c, e, i, k);
    assert f.log[|e.log|] == Transferred(RequestOf(e.active[i], k));
    assert Listed(e, e.active[i].record.id);
  }

  lemma InterruptedTells(c: Client, e: Engine, scans: nat, runs: nat, torn: bool)
    requires Sound(e)
    ensures var f := Interrupted(c, e, scans, runs, torn);
      && e.log <= f.log
      && forall k | 0 <= k < |Told(e, f)| :: Listed(e, About(Told(e, f)[k])) && !Told(e, f)[k].Complete?
  {
    hide Sound, Interrupted, Listed, RunUpTo, ActivateUpTo;
    InterruptedWorks(c, e, scans, runs, torn);
  }

  lemma StoppedGates(c: Client, scanner: Scanner, r: Runtime, stop: Stop, now: int, id: Text)
    requires Gated(r)
    ensures Stopped(r, StoppedAt(c, scanner, r, stop, now), id)
  {
    hide Gated, ReleasedDue, Interrupted, Told, WorkedAsFar, ReportedAsFar, MidVerification, OnDisk, Listed, StateOf, OnlyStates, Sound, Worked;
    GatedOnDisk(r);
    OnlyStatesSelf(r.items);
    LetGo(r, now);
    LetGoListed(r, now);
    var released := ReleasedDue(r, now);
    SameStates(r, released);
    GatedSound(released);
    match stop
    case Between =>
    case InPump(scans, runs, torn, told) =>
      InterruptedTells(c, released.engine, scans, runs, torn);
      InterruptedKeeps(c, released.engine, scans, runs, torn);
      StoppedInWork(released, Interrupted(c, released.engine, scans, runs, torn), told, id);
    case InReports(count) => StoppedInReports(c, scanner, released, count, id);
    case InReport(count, steps) =>
      StoppedInReports(c, scanner, released, count, id);
      var s := ReportedAsFar(c, scanner, released, count);
      if count < |s.engine.active| && s.engine.active[count].finished {
        WorkKeeps(c, released.engine);
        SoundNames(Worked(c, released.engine), count);
        MidVerificationGates(scanner, s, s.engine.active[count], steps);
        OnlyStatesChain(r.items, s.items, MidVerification(scanner, s, s.engine.active[count], steps).items);
        WorkLists(c, released.engine, count);
      }
  }

  /** Who is active when the transfers are done was listed before. */
  lemma WorkLists(c: Client, e: Engine, i: nat)
    requires Sound(e) && i < |Worked(c, e).active|
    ensures Listed(e, Worked(c, e).active[i].record.id)
  {
    hide Sound, Worked, IsPending;
    WorkSpeaks(c, e);
    assert IsActive(Worked(c, e), Worked(c, e).active[i].record.id);
  }

  lemma StepGates(c: Client, scanner: Scanner, r: Runtime, call: RuntimeCall)
    requires Gated(r)
    ensures Gated(RuntimeStep(c, scanner, r, call))
    ensures r.releases <= RuntimeStep(c, scanner, r, call).releases
  {
    hide Gated, AfterRuntimePump, Begun, AfterRuntimePause, AfterRuntimeResume, AfterRuntimeCancel, AfterRuntimeRestart, ReopenedAll, PumpEffect, StateOf;
    match call
    case Begin(item, prepares, now) =>
      if New(r, item) {
        BeginGates(r, item, prepares, now);
      }
    case PauseDownload(id) => PauseGates(r, id); SameReleases(r, id, false, (false, false));
    case ResumeDownload(id) => PauseGates(r, id); SameReleases(r, id, false, (false, false));
    case CancelDownload(id, discard) => CancelGates(r, id, discard); SameReleases(r, id, discard, (false, false));
    case RestartDownload(id, prepared) => RestartGates(r, id, prepared); SameReleases(r, id, false, prepared);
    case PumpDownloads(now) => PumpGates(c, scanner, r, now);
    case Reopen(stop, last, destinations, now) =>
      var s := StoppedAt(c, scanner, r, stop, last);
      StoppedGates(c, scanner, r, stop, last, []);
      ReopeningGated(s);
      ReopenGates(Reopening(s), s.items, destinations, now, 0);
  }

  lemma SameReleases(r: Runtime, id: Text, discard: bool, prepared: (bool, bool))
    ensures AfterRuntimePause(r, id).releases == r.releases && AfterRuntimeResume(r, id).releases == r.releases
    ensures AfterRuntimeCancel(r, id, discard).releases == r.releases && AfterRuntimeRestart(r, id, prepared).releases == r.releases
  {
    hide Known, AfterCancel, AfterQueue, CanQueue, WithState, FindItem;
  }

  /** The finding behind a release: it names the download and the bytes released, it says clean, and it was valid. */
  ghost predicate IsFound(x: Release, finding: Option<ScanRecord>) {
    && finding.Some? && finding.value.resourceId == Ascii("browser:download:") + x.plan.id && finding.value.result == Clean
    && finding.value.digest == Sha256.Hex(Sha256.Digest(x.bytes)) && finding.value.observedAt <= x.inspection.now < finding.value.validUntil
    && |x.bytes| == x.plan.metadata.total && x.inspection.after == Some(x.bytes)
  }

  /** Over every run, whatever the scanner, the disk and the client answer: what is released has the planned length and is
      what was read after the scan, and the finding behind it is current, clean and about that download and those bytes;
      and no completed record is without a release. */
  lemma {:induction false} RunIsGated(c: Client, scanner: Scanner, calls: seq<RuntimeCall>)
    ensures Gated(RuntimeRun(c, scanner, calls))
    ensures forall x | x in RuntimeRun(c, scanner, calls).releases :: IsFound(x, x.inspection.response.record)
  {
    hide RuntimeStep, RuntimeRun, Gated, Ascii, Sha256.Hex, Sha256.Digest;
    if calls == [] {
      FirstRunIs(c, scanner);
      FirstIsGated();
    } else {
      RunIsGated(c, scanner, calls[..|calls| - 1]);
      StepGates(c, scanner, RuntimeRun(c, scanner, calls[..|calls| - 1]), calls[|calls| - 1]);
      NextRunIs(c, scanner, calls);
    }
    GatedReleases(RuntimeRun(c, scanner, calls));
  }

  lemma FirstRunIs(c: Client, scanner: Scanner)
    ensures RuntimeRun(c, scanner, []) == FirstRuntime()
  {
    hide FirstRuntime;
  }

  lemma NextRunIs(c: Client, scanner: Scanner, calls: seq<RuntimeCall>)
    requires calls != []
    ensures RuntimeRun(c, scanner, calls) == RuntimeStep(c, scanner, RuntimeRun(c, scanner, calls[..|calls| - 1]), calls[|calls| - 1])
  {
    hide RuntimeStep;
  }

  lemma GatedReleases(r: Runtime)
    requires Gated(r)
    ensures forall x | x in r.releases :: IsFound(x, x.inspection.response.record)
  {
    hide Sound, Resting, Orderly, Tracked, Known, HasRelease, Ascii, Sha256.Hex, Sha256.Digest;
  }

  /** A finding releases no other download: two releases whose findings carry one resource id are of one download. */
  lemma OneFindingOneDownload(c: Client, scanner: Scanner, calls: seq<RuntimeCall>, x: Release, y: Release)
    requires x in RuntimeRun(c, scanner, calls).releases && y in RuntimeRun(c, scanner, calls).releases
    requires x.inspection.response.record.Some? && y.inspection.response.record.Some?
    requires x.inspection.response.record.value.resourceId == y.inspection.response.record.value.resourceId
    ensures x.plan.id == y.plan.id
  {
    hide RuntimeRun, Ascii, Gated, Sha256.Hex, Sha256.Digest;
    RunIsGated(c, scanner, calls);
    SameEnds(Ascii("browser:download:"), x.plan.id, y.plan.id);
  }

  lemma SameEnds(prefix: Text, a: Text, b: Text)
    ensures prefix + a == prefix + b ==> a == b
  {
    assert a == (prefix + a)[|prefix|..] && b == (prefix + b)[|prefix|..];
  }

  lemma FirstIsGated()
    ensures Gated(FirstRuntime())
  {
    NothingListed(FirstRuntime().engine);
  }

  /** The gate, at every step of every run. */
  lemma GateAtEveryStep(c: Client, scanner: Scanner, calls: seq<RuntimeCall>, call: RuntimeCall, id: Text)
    ensures GateHolds(RuntimeRun(c, scanner, calls), call, RuntimeStep(c, scanner, RuntimeRun(c, scanner, calls), call), id)
  {
    hide RuntimeStep, Gated, GateHolds, RuntimeRun;
    RunIsGated(c, scanner, calls);
    StepHoldsGate(c, scanner, RuntimeRun(c, scanner, calls), call, id);
  }

  lemma StepHoldsGate(c: Client, scanner: Scanner, r: Runtime, call: RuntimeCall, id: Text)
    requires Gated(r)
    ensures GateHolds(r, call, RuntimeStep(c, scanner, r, call), id)
  {
    hide Gated, AfterRuntimePump, Begun, AfterRuntimePause, AfterRuntimeResume, AfterRuntimeCancel, AfterRuntimeRestart, ReopenedAll, StateOf, Listed, NewRelease;
    match call
    case Begin(item, prepares, now) =>
      if New(r, item) {
        BeginGates(r, item, prepares, now);
        BegunState(r, item, prepares, now);
      }
    case PauseDownload(x) => PauseGates(r, x);
    case ResumeDownload(x) => PauseGates(r, x);
    case CancelDownload(x, discard) => CancelGates(r, x, discard);
    case RestartDownload(x, prepared) => RestartGates(r, x, prepared);
    case PumpDownloads(now) =>
      PumpGates(c, scanner, r, now);
      assert PumpEffect(r, RuntimeStep(c, scanner, r, call), id);
      StillKnown(r, id);
    case Reopen(stop, last, destinations, now) =>
      StoppedGates(c, scanner, r, stop, last, id);
      ReopenStates(StoppedAt(c, scanner, r, stop, last), destinations, now, id);
      StillKnown(r, id);
      SamePrivacy(r, StoppedAt(c, scanner, r, stop, last), id);
  }

  lemma BegunState(r: Runtime, item: Item, prepares: bool, now: int)
    requires Gated(r) && New(r, item)
    ensures StateOf(r, item.id) == None
    ensures !Known(Begun(r, item, prepares, now), item.id, {Completed})
  {
    hide Gated, AfterQueue, CanQueue, TransferScheduler.AfterPause, Future;
    AppendedFind(r.items, item, item.id);
  }

  lemma SamePrivacy(r: Runtime, s: Runtime, id: Text)
    requires OnlyStates(r.items, s.items)
    ensures Private(s, id) == Private(r, id) && HasItem(s.items, id) == HasItem(r.items, id)
  {
    SameIds(r.items, s.items, id);
  }

  lemma ReopenStates(r: Runtime, destinations: Text -> bool, now: int, id: Text)
    requires OnDisk(r)
    ensures var s := Reopened(r, destinations, now);
      && (Known(r, id, {Held, Blocked}) ==>
            StateOf(s, id) == if Private(r, id) then None else if destinations(id) then StateOf(r, id) else Some(Failed))
      && !Known(s, id, {Completed})
  {
    hide ReopenedAll, Sound, Resting, Tracked, Proper;
    var i := FindItem(r.items, id);
    ReopeningGated(r);
    ReopenGates(Reopening(r), r.items, destinations, now, i);
    var s := Reopened(r, destinations, now);
    if StateOf(s, id).Some? {
      var k :| 0 <= k < |r.items| && r.items[k].id == id && !r.items[k].request.privateSession;
      assert k == i;
    }
  }

  /** The verdict of a pump's verification is what the pump ends with: nothing later in it touches that download. */
  lemma VerdictStands(c: Client, scanner: Scanner, r: Runtime, now: int, j: nat)
    requires Gated(r)
    requires j < |AfterWork(c, ReleasedDue(r, now)).engine.active| && AfterWork(c, ReleasedDue(r, now)).engine.active[j].finished
    ensures var worked := AfterWork(c, ReleasedDue(r, now));
      var id := worked.engine.active[j].record.id;
      && StateOf(AfterRuntimePump(c, scanner, r, now), id) == StateOf(CalledBack(scanner, worked, worked.engine.active[..j + 1]), id)
      && CalledBack(scanner, worked, worked.engine.active[..j + 1])
         == ReportedBack(scanner, CalledBack(scanner, worked, worked.engine.active[..j]), worked.engine.active[j])
  {
    hide Gated, ReleasedDue, AfterWork, StateOf, ReportedBack, Sound, Worked, Swept, OnlyStates;
    var worked := AfterWork(c, ReleasedDue(r, now));
    var actives := worked.engine.active;
    LetGo(r, now);
    WorkEffect(c, ReleasedDue(r, now), actives[j].record.id);
    SoundReported(worked.engine);
    SoundIds(worked.engine);
    LaterLeaves(scanner, worked, actives, j + 1, actives[j].record.id);
    var back := CalledBack(scanner, worked, actives);
    SameStates(back, back.(engine := Swept(back.engine)));
    assert actives[..j + 1][..j] == actives[..j];
  }

  lemma GatedSound(r: Runtime)
    requires Gated(r)
    ensures Sound(r.engine)
  {
    hide Sound, Resting, Orderly, Tracked, Proper, Known, HasRelease;
  }

  /** After a reopening the state shown to the user is the record's, except for a failed record: it is shown as
      queued, and queued, while the record still says failed. */
  lemma ShownAfterReopening(r: Runtime, item: Item, prepares: Text -> bool, now: int)
    requires Gated(r) && CanRestore(r.items, item) && prepares(item.id)
    requires !item.request.privateSession && item.state != Completed && item.state != Cancelled
    ensures var s := ReopenedOne(r, item, prepares, now);
      && item.id in s.shown
      && (Some(s.shown[item.id]) == StateOf(s, item.id) <==> item.state != Failed)
      && (item.state == Failed ==> s.shown[item.id] == Queued && IsPending(s.engine, item.id))
  {
    hide Gated, WithState, Marked, Requeued, FileName, StagedPath;
    ReopenOneGates(r, item, prepares, now);
    Unlisted(r, item.id);
    var restored := RestoredItem(item);
    AppendedFind(r.items, restored, item.id);
    var listed := r.(items := r.items + [restored], engine := Prepared(r.engine, item.id, RecordOf(restored).name));
    ShownRequeued(listed, restored, item.state == Paused, now);
  }

  lemma ShownRequeued(r: Runtime, item: Item, wasPaused: bool, now: int)
    requires item.id != [] && item.request.url != [] && !Listed(r.engine, item.id)
    ensures var s := Requeued(r, item, wasPaused, now);
      && s.items == r.items && IsPending(s.engine, item.id)
      && item.id in s.shown && s.shown[item.id] == if wasPaused then Paused else Queued
  {
    hide Future, FileName;
    assert (r.engine.pending + [RecordOf(item)])[|r.engine.pending|].id == item.id;
  }
}
